/**
 * Properties of the per-tick specification in module Game: how a paddle hit
 * changes the ball, what the AI paddle aims at, and what a whole tick keeps.
 */
module GameLemmas {
  import opened Structs
  import opened Game

  function Max(a: real, b: real): real {
    if a >= b then a else b
  }

  // ---------------------------------------------------------------------------
  // One paddle hit

  /** The ball leaves upwards from the upper half of what it hit, downwards from the lower half. */
  lemma BounceDirection(m: Motion, maxVelocity: Vec2, center: Vec2, other: ObjectCollider)
    requires maxVelocity.x >= 0.0 && center.y > 0.0
    ensures var r := Bounce(m, maxVelocity, center, other);
      && (r.velocity.y >= 0.0 <==> center.y >= other.center.y)
      && Abs(r.velocity.y) == Min(2.0 * Abs(center.y - other.center.y) / center.y, 1.0)
  {
  }

  /** A hit never lets the ball keep its horizontal direction. */
  lemma BounceReversesX(m: Motion, maxVelocity: Vec2, center: Vec2, other: ObjectCollider)
    requires maxVelocity.x >= 0.0 && center.y != 0.0
    ensures Bounce(m, maxVelocity, center, other).velocity.x * m.velocity.x <= 0.0
  {
    var vx := m.velocity.x;
    var c := Clamp(vx * 1.15, -maxVelocity.x, maxVelocity.x);
    if vx >= 0.0 {
      assert c >= 0.0;
      assert -c * vx <= 0.0;
    } else {
      assert c <= 0.0;
      assert -c * vx <= 0.0;
    }
  }

  // ---------------------------------------------------------------------------
  // The paddle loop

  /** Every hit reverses this tick's displacement: an even number of hits leaves it as it was. */
  lemma {:induction false} BouncesDelta(m0: Motion, maxVelocity: Vec2, center: Vec2, moved: ObjectCollider,
                                        cs: seq<ObjectCollider>, self: nat, k: nat)
    requires k <= |cs| && maxVelocity.x >= 0.0 && center.y != 0.0
    ensures Bounces(m0, maxVelocity, center, moved, cs, self, k).delta ==
      if HitCount(moved, cs, self, k) % 2 == 0 then m0.delta else Vec2(-m0.delta.x, -m0.delta.y)
  {
    if k > 0 {
      BouncesDelta(m0, maxVelocity, center, moved, cs, self, k - 1);
    }
  }

  /** Without a hit the loop leaves velocity and displacement untouched. */
  lemma {:induction false} BouncesUntouched(m0: Motion, maxVelocity: Vec2, center: Vec2, moved: ObjectCollider,
                                            cs: seq<ObjectCollider>, self: nat, k: nat)
    requires k <= |cs| && maxVelocity.x >= 0.0 && center.y != 0.0
    requires HitCount(moved, cs, self, k) == 0
    ensures Bounces(m0, maxVelocity, center, moved, cs, self, k) == m0
  {
    if k > 0 {
      BouncesUntouched(m0, maxVelocity, center, moved, cs, self, k - 1);
    }
  }

  /** After at least one hit, the last object hit decides the outcome; later objects change nothing. */
  lemma {:induction false} BouncesLastHit(m0: Motion, maxVelocity: Vec2, center: Vec2, moved: ObjectCollider,
                                          cs: seq<ObjectCollider>, self: nat, k: nat)
      returns (o: nat)
    requires k <= |cs| && maxVelocity.x >= 0.0 && center.y != 0.0
    requires HitCount(moved, cs, self, k) > 0
    ensures o < k && IsHit(moved, cs, self, o)
    ensures forall p :: o < p < k ==> !IsHit(moved, cs, self, p)
    ensures Bounces(m0, maxVelocity, center, moved, cs, self, k) ==
      Bounce(Bounces(m0, maxVelocity, center, moved, cs, self, o), maxVelocity, center, cs[o])
  {
    if IsHit(moved, cs, self, k - 1) {
      o := k - 1;
    } else {
      o := BouncesLastHit(m0, maxVelocity, center, moved, cs, self, k - 1);
    }
  }

  /** After a hit the ball's speeds are within their caps: `max_velocity.x` across, 1 up or down. */
  lemma BouncesCapped(m0: Motion, maxVelocity: Vec2, center: Vec2, moved: ObjectCollider,
                      cs: seq<ObjectCollider>, self: nat, k: nat)
    requires k <= |cs| && maxVelocity.x >= 0.0 && center.y != 0.0
    requires HitCount(moved, cs, self, k) > 0
    ensures var m := Bounces(m0, maxVelocity, center, moved, cs, self, k);
      Abs(m.velocity.x) <= maxVelocity.x && Abs(m.velocity.y) <= 1.0
  {
    var o := BouncesLastHit(m0, maxVelocity, center, moved, cs, self, k);
  }

  // ---------------------------------------------------------------------------
  // The ball's step

  /** Outside the wall bands the ball's centre is below the top edge, so the division is defined. */
  lemma BallCenterBelowTop(o: ObjectState, width: real, height: real)
    requires ReachesPaddleTest(o, width, height) && o.size.y > 0.0
    ensures o.GetCenter().y > 0.0
  {
  }

  /** A ball whose centre leaves the field sideways restarts from the centre at its starting speed. */
  lemma BallLeavesField(o: ObjectState, self: nat, cs: seq<ObjectCollider>,
                        deltaTime: real, width: real, height: real)
    requires o.objType == Ball && self < |cs| && OutOfBounds(o, width)
    ensures var r := StepBall(o, self, cs, deltaTime, width, height);
      && r.velocity == Vec2(width / 3200.0, 0.0)
      && r.maxVelocity == Vec2(width / 400.0, height / 400.0)
      && r.GetCenter() == Vec2(width / 2.0, height / 2.0).Add(Displacement(o.velocity, deltaTime))
  {
  }

  /** Near the top or bottom wall the vertical direction of velocity and displacement both flip. */
  lemma BallWallBounce(o: ObjectState, self: nat, cs: seq<ObjectCollider>,
                       deltaTime: real, width: real, height: real)
    requires o.objType == Ball && self < |cs| && !OutOfBounds(o, width) && InWallBand(o, height)
    ensures var r := StepBall(o, self, cs, deltaTime, width, height);
      && r.velocity.x == o.velocity.x && r.velocity.y == -o.velocity.y
      && r.maxVelocity == o.maxVelocity
      && r.position.x - o.position.x == o.velocity.x * deltaTime
      && r.position.y - o.position.y == -1.2 * (o.velocity.y * deltaTime)
  {
  }

  /** A ball that hits nothing flies on unchanged. */
  lemma BallFreeFlight(o: ObjectState, self: nat, cs: seq<ObjectCollider>,
                       deltaTime: real, width: real, height: real)
    requires o.objType == Ball && self < |cs| && ReachesPaddleTest(o, width, height)
    requires o.maxVelocity.x >= 0.0 && o.GetCenter().y != 0.0
    requires HitCount(Moved(cs[self], Displacement(o.velocity, deltaTime)), cs, self, |cs|) == 0
    ensures StepBall(o, self, cs, deltaTime, width, height) ==
      o.(position := o.position.Add(Displacement(o.velocity, deltaTime)))
  {
    var delta := Displacement(o.velocity, deltaTime);
    BouncesUntouched(Motion(o.velocity, delta), o.maxVelocity, o.GetCenter(),
                     Moved(cs[self], delta), cs, self, |cs|);
  }

  /** Hits among the first j objects are fewer than among the first k when object j is hit. */
  lemma {:induction false} HitCountBefore(moved: ObjectCollider, cs: seq<ObjectCollider>, self: nat,
                                          j: nat, k: nat)
    requires j < k <= |cs| && IsHit(moved, cs, self, j)
    ensures HitCount(moved, cs, self, j) + 1 <= HitCount(moved, cs, self, k)
    decreases k
  {
    if j < k - 1 {
      HitCountBefore(moved, cs, self, j, k - 1);
    }
  }

  /**
   * With exactly one hit the loop's outcome is that single bounce: the
   * displacement is reversed and the horizontal direction turns back with the
   * horizontal speed grown by 15% up to its cap.
   */
  lemma BouncesSingleHit(m0: Motion, maxVelocity: Vec2, center: Vec2, moved: ObjectCollider,
                         cs: seq<ObjectCollider>, self: nat, k: nat)
    requires k <= |cs| && maxVelocity.x >= 0.0 && center.y != 0.0
    requires HitCount(moved, cs, self, k) == 1
    ensures var m := Bounces(m0, maxVelocity, center, moved, cs, self, k);
      && m.delta == Vec2(-m0.delta.x, -m0.delta.y)
      && m.velocity.x * m0.velocity.x <= 0.0
      && Abs(m.velocity.x) == Min(1.15 * Abs(m0.velocity.x), maxVelocity.x)
  {
    var o := BouncesLastHit(m0, maxVelocity, center, moved, cs, self, k);
    HitCountBefore(moved, cs, self, o, k);
    BouncesUntouched(m0, maxVelocity, center, moved, cs, self, o);
    BounceReversesX(m0, maxVelocity, center, cs[o]);
  }

  /** A ball that hits exactly one paddle turns back along this tick's displacement. */
  lemma BallSingleHit(o: ObjectState, self: nat, cs: seq<ObjectCollider>,
                      deltaTime: real, width: real, height: real)
    requires o.objType == Ball && self < |cs| && ReachesPaddleTest(o, width, height)
    requires o.maxVelocity.x >= 0.0 && o.GetCenter().y != 0.0
    requires HitCount(Moved(cs[self], Displacement(o.velocity, deltaTime)), cs, self, |cs|) == 1
    ensures var r := StepBall(o, self, cs, deltaTime, width, height);
      && r.position == o.position.Sub(Displacement(o.velocity, deltaTime))
      && r.velocity.x * o.velocity.x <= 0.0
      && Abs(r.velocity.x) == Min(1.15 * Abs(o.velocity.x), o.maxVelocity.x)
      && r.maxVelocity == o.maxVelocity
  {
    var delta := Displacement(o.velocity, deltaTime);
    BouncesSingleHit(Motion(o.velocity, delta), o.maxVelocity, o.GetCenter(), Moved(cs[self], delta),
                     cs, self, |cs|);
  }

  /**
   * After any number of hits `|vx| <= max_velocity.x` and `|vy| <= 1` (the y cap of the
   * paddle response, not `max_velocity.y`), and `max_velocity` itself is unchanged.
   */
  lemma BallHitCapped(o: ObjectState, self: nat, cs: seq<ObjectCollider>,
                      deltaTime: real, width: real, height: real)
    requires o.objType == Ball && self < |cs| && ReachesPaddleTest(o, width, height)
    requires o.maxVelocity.x >= 0.0 && o.GetCenter().y != 0.0
    requires HitCount(Moved(cs[self], Displacement(o.velocity, deltaTime)), cs, self, |cs|) > 0
    ensures var r := StepBall(o, self, cs, deltaTime, width, height);
      && Abs(r.velocity.x) <= o.maxVelocity.x && Abs(r.velocity.y) <= 1.0
      && r.maxVelocity == o.maxVelocity
  {
    var delta := Displacement(o.velocity, deltaTime);
    BouncesCapped(Motion(o.velocity, delta), o.maxVelocity, o.GetCenter(),
                  Moved(cs[self], delta), cs, self, |cs|);
  }

  // ---------------------------------------------------------------------------
  // The AI paddle

  /** Away from the ball's column, "incoming" means the ball's x velocity points at the paddle. */
  lemma IsIncomingTowards(paddleX: real, ballPosition: Vec2, ballVelocity: Vec2)
    requires paddleX != ballPosition.x
    ensures IsIncoming(paddleX, ballPosition, ballVelocity) <==>
      (paddleX - ballPosition.x) * ballVelocity.x > 0.0
  {
    var d := paddleX - ballPosition.x;
    var v := ballVelocity.x;
    if d > 0.0 {
      assert v > 0.0 ==> d * v > 0.0;
      assert v <= 0.0 ==> d * v <= 0.0;
    } else {
      assert v < 0.0 ==> d * v > 0.0;
      assert v >= 0.0 ==> d * v <= 0.0;
    }
  }

  /** The point reached after time `t` on the straight path from `position` with `velocity`. */
  function PathPoint(position: Vec2, velocity: Vec2, t: real): Vec2 {
    Vec2(position.x + t * velocity.x, position.y + t * velocity.y)
  }

  /** An incoming ball's target is where its straight path, from now on, crosses the paddle's column. */
  lemma AiTargetOnPath(paddleX: real, paddleHeight: real, track: Track, height: real)
    requires IsIncoming(paddleX, track.position, track.velocity)
    ensures exists t ::
      && t >= 0.0
      && PathPoint(track.position, track.velocity, t) == Vec2(paddleX, AiTarget(paddleX, paddleHeight, track, height))
  {
    var pos, vel := track.position, track.velocity;
    var t := (paddleX - pos.x) / vel.x;
    assert t * vel.x == paddleX - pos.x;
    if paddleX < pos.x {
      assert t > 0.0;
    } else {
      assert t >= 0.0;
    }
    assert PathPoint(pos, vel, t) == Vec2(paddleX, AiTarget(paddleX, paddleHeight, track, height));
  }

  /** A ball moving straight across is met at its own height. */
  lemma AiTargetLevel(paddleX: real, paddleHeight: real, track: Track, height: real)
    requires IsIncoming(paddleX, track.position, track.velocity) && track.velocity.y == 0.0
    ensures AiTarget(paddleX, paddleHeight, track, height) == track.position.y
  {
  }

  /**
   * With a step factor between 0 and 1 the paddle ends between where it was
   * and where it aims, both kept in the margin.
   */
  lemma AiFollowBetween(y: real, yTar: real, paddleHeight: real, factor: real, height: real)
    requires paddleHeight * 0.05 <= height - paddleHeight * 1.05
    requires 0.0 <= factor <= 1.0
    ensures var lo, hi := paddleHeight * 0.05, height - paddleHeight * 1.05;
      var r := AiFollow(y, yTar, paddleHeight, factor, height);
      var a, b := Clamp(y, lo, hi), Clamp(yTar - paddleHeight / 2.0, lo, hi);
      Min(a, b) <= r <= Max(a, b)
  {
    var lo, hi := paddleHeight * 0.05, height - paddleHeight * 1.05;
    var g := yTar - paddleHeight / 2.0;
    var v := y + (yTar - paddleHeight / 2.0 - y) * factor;
    assert AiFollow(y, yTar, paddleHeight, factor, height) == Clamp(v, lo, hi);
    ScaledBetween(y, g, factor, v);
    ClampBetween(y, g, v, lo, hi);
  }

  /** Clamping a point between y and g gives a value between the clamped y and the clamped g. */
  lemma ClampBetween(y: real, g: real, v: real, lo: real, hi: real)
    requires lo <= hi && Min(y, g) <= v <= Max(y, g)
    ensures Min(Clamp(y, lo, hi), Clamp(g, lo, hi)) <= Clamp(v, lo, hi) <= Max(Clamp(y, lo, hi), Clamp(g, lo, hi))
  {
    if y <= g {
      ClampMonotone(y, v, lo, hi);
      ClampMonotone(v, g, lo, hi);
    } else {
      ClampMonotone(v, y, lo, hi);
      ClampMonotone(g, v, lo, hi);
    }
  }

  /** A fraction between 0 and 1 of the way from y to g lies between y and g. */
  lemma ScaledBetween(y: real, g: real, k: real, v: real)
    requires 0.0 <= k <= 1.0 && v == y + (g - y) * k
    ensures Min(y, g) <= v <= Max(y, g)
  {
    var d := g - y;
    assert v == y + d * k;
    assert d * k - d == d * (k - 1.0);
    if d >= 0.0 {
      assert 0.0 <= d * k <= d;
      assert y <= v <= g;
    } else {
      assert d <= d * k <= 0.0;
      assert g <= v <= y;
    }
  }

  /**
   * The default aim: with no incoming ball and a full step, the paddle's centre goes to
   * `height/2 - size.y/2`, half a paddle above the field's centre, because the default
   * target is a top coordinate and the step subtracts half the paddle height once more.
   */
  lemma AiDefaultAim(y: real, paddleX: real, paddleHeight: real, track: Track, height: real)
    requires !IsIncoming(paddleX, track.position, track.velocity)
    requires 0.0 <= paddleHeight && 2.1 * paddleHeight <= height
    ensures var yTar := AiTarget(paddleX, paddleHeight, track, height);
      AiFollow(y, yTar, paddleHeight, 1.0, height) + paddleHeight / 2.0 == height / 2.0 - paddleHeight / 2.0
  {
  }

  /** A paddle already centred on its target, inside the margin, stays put. */
  lemma AiFollowAligned(y: real, yTar: real, paddleHeight: real, factor: real, height: real)
    requires paddleHeight * 0.05 <= y <= height - paddleHeight * 1.05
    requires y == yTar - paddleHeight / 2.0
    ensures AiFollow(y, yTar, paddleHeight, factor, height) == y
  {
  }

  /** Without a ball the AI paddle just drifts with its own velocity. */
  lemma AiPaddleWithoutBall(o: ObjectState, self: nat, cs: seq<ObjectCollider>,
                            deltaTime: real, height: real, aiAccuracy: real)
    requires o.objType == PaddleLeft && self < |cs|
    ensures StepAiPaddle(o, self, cs, None, deltaTime, height, aiAccuracy) ==
      o.(position := o.position.Add(Displacement(o.velocity, deltaTime)))
  {
  }

  /** A vertically still AI paddle that follows a ball ends inside the margin of the field. */
  lemma AiPaddleInField(o: ObjectState, self: nat, cs: seq<ObjectCollider>, track: Track,
                        deltaTime: real, height: real, aiAccuracy: real)
    requires o.objType == PaddleLeft && self < |cs|
    requires o.size.y * 0.05 <= height - o.size.y * 1.05
    requires o.velocity.y == 0.0
    ensures var r := StepAiPaddle(o, self, cs, Some(track), deltaTime, height, aiAccuracy);
      && o.size.y * 0.05 <= r.position.y <= height - o.size.y * 1.05
      && r.position.x == o.position.x + o.velocity.x * deltaTime
  {
  }

  // ---------------------------------------------------------------------------
  // A whole tick

  /** A tick keeps the objects, their kinds and sizes; only the ball changes velocity. */
  lemma TickKeepsShape(s: seq<ObjectState>, deltaTime: real, width: real, height: real, aiAccuracy: real)
    requires TickDefined(s, width, height)
    ensures var r := Tick(s, deltaTime, width, height, aiAccuracy);
      && |r| == |s|
      && (forall i :: 0 <= i < |s| ==> r[i].objType == s[i].objType && r[i].size == s[i].size)
      && (forall i :: 0 <= i < |s| && s[i].objType != Ball ==>
            r[i].velocity == s[i].velocity && r[i].maxVelocity == s[i].maxVelocity)
  {
    forall i | 0 <= i < |s| {
      TickAt(s, i, deltaTime, width, height, aiAccuracy);
    }
  }

  /** The player's paddle is moved by its own velocity only. */
  lemma TickRightPaddle(s: seq<ObjectState>, i: nat, deltaTime: real, width: real, height: real,
                        aiAccuracy: real)
    requires TickDefined(s, width, height) && i < |s| && s[i].objType == PaddleRight
    ensures Tick(s, deltaTime, width, height, aiAccuracy)[i] ==
      s[i].(position := s[i].position.Add(Displacement(s[i].velocity, deltaTime)))
  {
    TickAt(s, i, deltaTime, width, height, aiAccuracy);
  }

  /** With no ball in play every object just moves by its own velocity. */
  lemma TickWithoutBall(s: seq<ObjectState>, deltaTime: real, width: real, height: real, aiAccuracy: real)
    requires TickDefined(s, width, height)
    requires forall i :: 0 <= i < |s| ==> s[i].objType != Ball
    ensures forall i :: 0 <= i < |s| ==>
      Tick(s, deltaTime, width, height, aiAccuracy)[i] ==
      s[i].(position := s[i].position.Add(Displacement(s[i].velocity, deltaTime)))
  {
    LastBallTrackIsLastBall(s);
    forall i | 0 <= i < |s| {
      TickAt(s, i, deltaTime, width, height, aiAccuracy);
    }
  }

  // ---------------------------------------------------------------------------
  // Resetting every object

  /** `reset_objects` twice is `reset_objects` once. */
  lemma ResetAllIdempotent(s: seq<ObjectState>, width: real, height: real)
    ensures ResetAll(ResetAll(s, width, height), width, height) == ResetAll(s, width, height)
  {
    forall i | 0 <= i < |s| {
      ResetIdempotent(s[i], width, height);
    }
  }

  /** After `reset_objects` every object that fits lies inside the field. */
  lemma ResetAllInField(s: seq<ObjectState>, width: real, height: real)
    requires 0.0 <= height
    requires forall i :: 0 <= i < |s| && s[i].objType == Ball ==>
      0.0 <= s[i].size.x <= width && 0.0 <= s[i].size.y <= height
    requires forall i :: 0 <= i < |s| && s[i].objType != Ball ==> 0.0 <= s[i].size.x <= 0.95 * width
    ensures forall i :: 0 <= i < |s| ==> InField(ResetAll(s, width, height)[i], width, height)
  {
    forall i | 0 <= i < |s| ensures InField(ResetAll(s, width, height)[i], width, height) {
      if s[i].objType == Ball {
        BallResetInField(s[i], width, height);
      } else {
        PaddleResetInField(s[i], width, height);
      }
    }
  }

  /** A freshly reset game on a field of positive height can always be ticked. */
  lemma ResetAllTickDefined(s: seq<ObjectState>, width: real, height: real)
    requires 0.0 <= width && 0.0 < height
    ensures TickDefined(ResetAll(s, width, height), width, height)
  {
    var r := ResetAll(s, width, height);
    forall i | 0 <= i < |r| ensures StepDefined(r[i], LastBallTrack(r), width, height) {
      assert r[i] == s[i].Reset(width, height);
    }
  }

  // ---------------------------------------------------------------------------
  // Successive ticks

  /**
   * What keeps every `update` defined: each ball has positive height and a
   * non-negative horizontal speed cap, and each left paddle fits its clamp margin.
   */
  predicate Playable(s: seq<ObjectState>, height: real) {
    forall i :: 0 <= i < |s| ==>
      && (s[i].objType == Ball ==> s[i].size.y > 0.0 && s[i].maxVelocity.x >= 0.0)
      && (s[i].objType == PaddleLeft ==> s[i].size.y * 0.05 <= height - s[i].size.y * 1.05)
  }

  /** A playable field can be ticked: no clamp panics and no division by zero happens. */
  lemma PlayableTickDefined(s: seq<ObjectState>, width: real, height: real)
    requires Playable(s, height)
    ensures TickDefined(s, width, height)
  {
    forall i | 0 <= i < |s| ensures StepDefined(s[i], LastBallTrack(s), width, height) {
      if s[i].objType == Ball && ReachesPaddleTest(s[i], width, height) {
        BallCenterBelowTop(s[i], width, height);
      }
    }
  }

  /** A tick of a playable field of non-negative width leaves it playable, so every later tick is defined too. */
  lemma TickKeepsPlayable(s: seq<ObjectState>, deltaTime: real, width: real, height: real, aiAccuracy: real)
    requires 0.0 <= width && Playable(s, height)
    ensures TickDefined(s, width, height)
    ensures Playable(Tick(s, deltaTime, width, height, aiAccuracy), height)
  {
    PlayableTickDefined(s, width, height);
    var r := Tick(s, deltaTime, width, height, aiAccuracy);
    forall i | 0 <= i < |r|
      ensures r[i].objType == Ball ==> r[i].size.y > 0.0 && r[i].maxVelocity.x >= 0.0
      ensures r[i].objType == PaddleLeft ==> r[i].size.y * 0.05 <= height - r[i].size.y * 1.05
    {
      TickAt(s, i, deltaTime, width, height, aiAccuracy);
    }
  }

  /** `reset_objects` on a field of non-negative size makes it playable when every ball has positive height. */
  lemma ResetAllPlayable(s: seq<ObjectState>, width: real, height: real)
    requires 0.0 <= width && 0.0 <= height
    requires forall i :: 0 <= i < |s| && s[i].objType == Ball ==> s[i].size.y > 0.0
    ensures Playable(ResetAll(s, width, height), height)
  {
    var r := ResetAll(s, width, height);
    forall i | 0 <= i < |r|
      ensures r[i].objType == Ball ==> r[i].size.y > 0.0 && r[i].maxVelocity.x >= 0.0
      ensures r[i].objType == PaddleLeft ==> r[i].size.y * 0.05 <= height - r[i].size.y * 1.05
    {
      assert r[i] == s[i].Reset(width, height);
    }
  }
}
