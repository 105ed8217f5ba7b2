/**
 * The per-tick simulation of the pong game (src/game.rs): ball flight,
 * wall and paddle bounces, out-of-bounds resets and the left paddle's AI.
 *
 * `GameState.Update` is proved against the pure specification `Tick`,
 * which reads only the states of the objects before the tick.
 */
module Game {
  import opened Structs

  datatype Option<T> = None | Some(value: T)

  /** The ball's position and velocity as recorded before the tick (`ball_track`). */
  datatype Track = Track(position: Vec2, velocity: Vec2)

  function Abs(v: real): (r: real)
    ensures r >= 0.0 && (r == v || r == -v)
  {
    if v < 0.0 then -v else v
  }

  function Min(a: real, b: real): real {
    if a <= b then a else b
  }

  /** `f32::clamp`, which panics unless lo <= hi. */
  function Clamp(v: real, lo: real, hi: real): (r: real)
    requires lo <= hi
    ensures lo <= r <= hi
    ensures lo <= v <= hi ==> r == v
    ensures v < lo ==> r == lo
    ensures v > hi ==> r == hi
  {
    if v < lo then lo else if v > hi then hi else v
  }

  /** Clamping to a fixed interval preserves order. */
  lemma ClampMonotone(u: real, v: real, lo: real, hi: real)
    requires lo <= hi && u <= v
    ensures Clamp(u, lo, hi) <= Clamp(v, lo, hi)
  {
  }

  /** How far an object moves this tick at the given velocity (`velocity * delta_time`). */
  function Displacement(velocity: Vec2, deltaTime: real): Vec2 {
    Vec2(velocity.x * deltaTime, velocity.y * deltaTime)
  }

  /** The colliders of all objects, in object order: the snapshot taken before the tick. */
  function Colliders(s: seq<ObjectState>): (cs: seq<ObjectCollider>)
    ensures |cs| == |s|
    ensures forall i :: 0 <= i < |s| ==> cs[i] == s[i].GetCollider()
  {
    seq(|s|, i requires 0 <= i < |s| => s[i].GetCollider())
  }

  /** The snapshot loop keeps overwriting `ball_track`, so the last ball in the sequence wins. */
  function LastBallTrack(s: seq<ObjectState>): Option<Track> {
    if |s| == 0 then None
    else
      var last := s[|s| - 1];
      if last.objType == Ball then Some(Track(last.position, last.velocity))
      else LastBallTrack(s[..|s| - 1])
  }

  /** The track is absent exactly when there is no ball, and otherwise belongs to the last ball. */
  lemma {:induction false} LastBallTrackIsLastBall(s: seq<ObjectState>)
    ensures LastBallTrack(s).None? <==> forall i :: 0 <= i < |s| ==> s[i].objType != Ball
    ensures LastBallTrack(s).Some? ==>
      exists i :: 0 <= i < |s| && s[i].objType == Ball
        && LastBallTrack(s).value == Track(s[i].position, s[i].velocity)
        && forall j :: i < j < |s| ==> s[j].objType != Ball
  {
    if |s| > 0 && s[|s| - 1].objType != Ball {
      var prefix := s[..|s| - 1];
      LastBallTrackIsLastBall(prefix);
      assert forall i :: 0 <= i < |prefix| ==> prefix[i] == s[i];
    }
  }

  // ---------------------------------------------------------------------------
  // The ball

  /** The ball's horizontal centre has left the field: it is reset. */
  predicate OutOfBounds(o: ObjectState, width: real) {
    var center := o.GetCenter();
    center.x < 0.0 || center.x > width
  }

  /** The ball's centre is within half its height of the top or bottom edge: it bounces. */
  predicate InWallBand(o: ObjectState, height: real) {
    var center := o.GetCenter();
    center.y < o.size.y / 2.0 || center.y > height - o.size.y / 2.0
  }

  /** The ball is tested against the paddles this tick. */
  predicate ReachesPaddleTest(o: ObjectState, width: real, height: real) {
    !OutOfBounds(o, width) && !InWallBand(o, height)
  }

  /** The ball's pre-tick collider moved by this tick's displacement (`min += delta; max += delta`). */
  function Moved(c: ObjectCollider, delta: Vec2): ObjectCollider {
    c.(min := c.min.Add(delta), max := c.max.Add(delta))
  }

  /** The ball's velocity and this tick's displacement, as the paddle loop updates them. */
  datatype Motion = Motion(velocity: Vec2, delta: Vec2)

  /**
   * The response to one paddle hit. The x speed grows by 15%, capped at
   * `max_velocity.x`, and reverses; the y speed grows with the distance of the
   * hit from the other object's centre, capped at 1, and points away from it;
   * this tick's displacement is reversed.
   */
  function Bounce(m: Motion, maxVelocity: Vec2, center: Vec2, other: ObjectCollider): (r: Motion)
    requires maxVelocity.x >= 0.0 && center.y != 0.0
    ensures Abs(r.velocity.x) == Min(1.15 * Abs(m.velocity.x), maxVelocity.x)
    ensures Abs(r.velocity.y) <= 1.0
    ensures r.delta == Vec2(-m.delta.x, -m.delta.y)
  {
    var vx := -Clamp(m.velocity.x * 1.15, -maxVelocity.x, maxVelocity.x);
    var angle := center.y - other.center.y;
    var traj := Clamp((Abs(angle) * 2.0) / center.y, 0.0, 1.0);
    Motion(Vec2(vx, if angle >= 0.0 then traj else -traj), Vec2(-m.delta.x, -m.delta.y))
  }

  /** Object `o` (not the ball itself) is hit by the ball's moved collider. */
  predicate IsHit(moved: ObjectCollider, cs: seq<ObjectCollider>, self: nat, o: int) {
    0 <= o < |cs| && o != self && Collides(moved, cs[o])
  }

  /** The paddle loop over the first k pre-tick colliders, skipping the ball's own. */
  function Bounces(m0: Motion, maxVelocity: Vec2, center: Vec2, moved: ObjectCollider,
                   cs: seq<ObjectCollider>, self: nat, k: nat): Motion
    requires k <= |cs|
    requires maxVelocity.x >= 0.0 && center.y != 0.0
  {
    if k == 0 then m0
    else
      var m := Bounces(m0, maxVelocity, center, moved, cs, self, k - 1);
      if IsHit(moved, cs, self, k - 1) then Bounce(m, maxVelocity, center, cs[k - 1]) else m
  }

  /** The number of objects among the first k that the ball hits. */
  function HitCount(moved: ObjectCollider, cs: seq<ObjectCollider>, self: nat, k: nat): nat
    requires k <= |cs|
  {
    if k == 0 then 0
    else HitCount(moved, cs, self, k - 1) + if IsHit(moved, cs, self, k - 1) then 1 else 0
  }

  /** The ball arm of the behaviour match, followed by `position += delta`. */
  function StepBall(o: ObjectState, self: nat, cs: seq<ObjectCollider>,
                    deltaTime: real, width: real, height: real): (r: ObjectState)
    requires o.objType == Ball && self < |cs|
    requires ReachesPaddleTest(o, width, height) ==> o.maxVelocity.x >= 0.0 && o.GetCenter().y != 0.0
    ensures r.objType == o.objType && r.size == o.size
  {
    var delta := Displacement(o.velocity, deltaTime);
    var center := o.GetCenter();
    if OutOfBounds(o, width) then
      var reset := o.Reset(width, height);
      reset.(position := reset.position.Add(delta))
    else if InWallBand(o, height) then
      o.(velocity := o.velocity.(y := -o.velocity.y),
         position := o.position.Add(delta.(y := -(delta.y * 1.2))))
    else
      var m := Bounces(Motion(o.velocity, delta), o.maxVelocity, center, Moved(cs[self], delta), cs, self, |cs|);
      o.(velocity := m.velocity, position := o.position.Add(m.delta))
  }

  // ---------------------------------------------------------------------------
  // The AI paddle

  /** `is_incoming`: the ball moves towards the paddle's centre column. */
  function IsIncoming(paddleX: real, ballPosition: Vec2, ballVelocity: Vec2): (r: bool)
    ensures r ==> ballVelocity.x != 0.0
    ensures r <==>
      (paddleX < ballPosition.x && ballVelocity.x < 0.0) || (paddleX >= ballPosition.x && ballVelocity.x > 0.0)
  {
    if paddleX < ballPosition.x then ballVelocity.x < 0.0 else ballVelocity.x > 0.0
  }

  /**
   * `y_tar`: where the ball's straight path crosses the paddle's centre column
   * when the ball is incoming, and `height/2 - size.y/2` otherwise.
   */
  function AiTarget(paddleX: real, paddleHeight: real, track: Track, height: real): (yTar: real)
    ensures !IsIncoming(paddleX, track.position, track.velocity) ==> yTar == height / 2.0 - paddleHeight / 2.0
  {
    var pos, vel := track.position, track.velocity;
    if IsIncoming(paddleX, pos, vel) then
      var xDiff := paddleX - pos.x;
      var eta := xDiff / vel.x;
      pos.y + vel.y * eta
    else height / 2.0 - paddleHeight / 2.0
  }

  /**
   * The paddle's new top y: a step towards `yTar - size.y/2`, scaled by
   * `factor` (`delta_time * 0.0015 * ai_accuracy`), kept inside the field with a margin.
   */
  function AiFollow(y: real, yTar: real, paddleHeight: real, factor: real, height: real): (r: real)
    requires paddleHeight * 0.05 <= height - paddleHeight * 1.05
    ensures paddleHeight * 0.05 <= r <= height - paddleHeight * 1.05
    ensures factor == 0.0 ==> r == Clamp(y, paddleHeight * 0.05, height - paddleHeight * 1.05)
  {
    Clamp(y + (yTar - paddleHeight / 2.0 - y) * factor, paddleHeight * 0.05, height - paddleHeight * 1.05)
  }

  /** The left paddle arm of the behaviour match, followed by `position += delta`. */
  function StepAiPaddle(o: ObjectState, self: nat, cs: seq<ObjectCollider>, track: Option<Track>,
                        deltaTime: real, height: real, aiAccuracy: real): (r: ObjectState)
    requires o.objType == PaddleLeft && self < |cs|
    requires track.Some? ==> o.size.y * 0.05 <= height - o.size.y * 1.05
    ensures r.objType == o.objType && r.size == o.size
    ensures r.velocity == o.velocity && r.maxVelocity == o.maxVelocity
  {
    var delta := Displacement(o.velocity, deltaTime);
    match track
    case None => o.(position := o.position.Add(delta))
    case Some(t) =>
      var yTar := AiTarget(cs[self].center.x, o.size.y, t, height);
      var y := AiFollow(o.position.y, yTar, o.size.y, deltaTime * 0.0015 * aiAccuracy, height);
      o.(position := o.position.(y := y).Add(delta))
  }

  // ---------------------------------------------------------------------------
  // One tick

  /** What the tick demands of one object: the clamps' bounds are ordered and nothing divides by zero. */
  predicate StepDefined(o: ObjectState, track: Option<Track>, width: real, height: real) {
    && (o.objType == Ball && ReachesPaddleTest(o, width, height) ==>
          o.maxVelocity.x >= 0.0 && o.GetCenter().y != 0.0)
    && (o.objType == PaddleLeft && track.Some? ==> o.size.y * 0.05 <= height - o.size.y * 1.05)
  }

  predicate TickDefined(s: seq<ObjectState>, width: real, height: real) {
    forall i :: 0 <= i < |s| ==> StepDefined(s[i], LastBallTrack(s), width, height)
  }

  /** Iteration `self` of the behaviour loop, given the pre-tick state `o` of that object. */
  function StepSpec(o: ObjectState, self: nat, cs: seq<ObjectCollider>, track: Option<Track>,
                    deltaTime: real, width: real, height: real, aiAccuracy: real): (r: ObjectState)
    requires self < |cs|
    requires StepDefined(o, track, width, height)
    ensures r.objType == o.objType && r.size == o.size
    ensures o.objType != Ball ==> r.velocity == o.velocity && r.maxVelocity == o.maxVelocity
  {
    match o.objType
    case Ball => StepBall(o, self, cs, deltaTime, width, height)
    case PaddleLeft => StepAiPaddle(o, self, cs, track, deltaTime, height, aiAccuracy)
    case PaddleRight => o.(position := o.position.Add(Displacement(o.velocity, deltaTime)))
  }

  /** The first `n` iterations of the behaviour loop, all against the same pre-tick snapshot. */
  function TickPrefix(s: seq<ObjectState>, cs: seq<ObjectCollider>, track: Option<Track>, n: nat,
                      deltaTime: real, width: real, height: real, aiAccuracy: real): (r: seq<ObjectState>)
    requires n <= |s| == |cs|
    requires forall j :: 0 <= j < n ==> StepDefined(s[j], track, width, height)
    ensures |r| == n
  {
    if n == 0 then []
    else
      TickPrefix(s, cs, track, n - 1, deltaTime, width, height, aiAccuracy)
      + [StepSpec(s[n - 1], n - 1, cs, track, deltaTime, width, height, aiAccuracy)]
  }

  lemma {:induction false} TickPrefixAt(s: seq<ObjectState>, cs: seq<ObjectCollider>, track: Option<Track>,
                                        n: nat, j: nat, deltaTime: real, width: real, height: real,
                                        aiAccuracy: real)
    requires j < n <= |s| == |cs|
    requires forall k :: 0 <= k < n ==> StepDefined(s[k], track, width, height)
    ensures TickPrefix(s, cs, track, n, deltaTime, width, height, aiAccuracy)[j] ==
            StepSpec(s[j], j, cs, track, deltaTime, width, height, aiAccuracy)
  {
    if j < n - 1 {
      TickPrefixAt(s, cs, track, n - 1, j, deltaTime, width, height, aiAccuracy);
    }
  }

  /** The states after one tick: every object stepped, in order, against the same pre-tick snapshot. */
  function Tick(s: seq<ObjectState>, deltaTime: real, width: real, height: real, aiAccuracy: real)
    : (r: seq<ObjectState>)
    requires TickDefined(s, width, height)
    ensures |r| == |s|
  {
    TickPrefix(s, Colliders(s), LastBallTrack(s), |s|, deltaTime, width, height, aiAccuracy)
  }

  /** Object `i` after the tick is iteration `i` of the behaviour loop applied to its pre-tick state. */
  lemma TickAt(s: seq<ObjectState>, i: nat, deltaTime: real, width: real, height: real, aiAccuracy: real)
    requires TickDefined(s, width, height) && i < |s|
    ensures Tick(s, deltaTime, width, height, aiAccuracy)[i] ==
            StepSpec(s[i], i, Colliders(s), LastBallTrack(s), deltaTime, width, height, aiAccuracy)
  {
    var cs, track := Colliders(s), LastBallTrack(s);
    TickPrefixAt(s, cs, track, |s|, i, deltaTime, width, height, aiAccuracy);
  }

  /** Every object reset for the given field (`reset_objects`). */
  function ResetAll(s: seq<ObjectState>, width: real, height: real): (r: seq<ObjectState>)
    ensures |r| == |s|
    ensures forall i :: 0 <= i < |s| ==> r[i] == s[i].Reset(width, height)
  {
    seq(|s|, i requires 0 <= i < |s| => s[i].Reset(width, height))
  }

  // ---------------------------------------------------------------------------
  // The engine

  class GameState {
    var objects: seq<Object>
    var controlId: nat
    var aiAccuracy: real

    /** The engine owns its objects exclusively: no object appears twice. */
    ghost predicate Valid()
      reads this
    {
      forall a, b :: 0 <= a < b < |objects| ==> objects[a] != objects[b]
    }

    /** The current values of the objects, in order. */
    ghost function States(): (r: seq<ObjectState>)
      reads this, objects
      ensures |r| == |objects|
      ensures forall j :: 0 <= j < |objects| ==> r[j] == objects[j].State()
    {
      seq(|objects|, j reads this, objects requires 0 <= j < |objects| => objects[j].State())
    }

    /** `GameState::new`: no objects, control of object 0, AI accuracy one half. */
    constructor ()
      ensures objects == [] && controlId == 0 && aiAccuracy == 0.5
      ensures Valid()
    {
      objects := [];
      controlId := 0;
      aiAccuracy := 0.5;
    }

    /** `update`: snapshot the colliders and the ball, then step every object in place. */
    method Update(deltaTime: real, width: real, height: real)
      requires Valid()
      requires TickDefined(States(), width, height)
      modifies objects
      ensures objects == old(objects)
      ensures States() == Tick(old(States()), deltaTime, width, height, aiAccuracy)
    {
      ghost var s0 := States();
      ghost var next := Tick(s0, deltaTime, width, height, aiAccuracy);
      var colliders, ballTrack := Snapshot();
      forall j | 0 <= j < |s0|
        ensures next[j] == StepSpec(s0[j], j, colliders, ballTrack, deltaTime, width, height, aiAccuracy)
      {
        TickAt(s0, j, deltaTime, width, height, aiAccuracy);
      }
      StepAll(objects, colliders, ballTrack, deltaTime, width, height, s0, next);
      assert States() == next;
    }

    /** The behaviour loop: object `i` is stepped against the snapshot, and only object `i` changes. */
    method StepAll(objs: seq<Object>, colliders: seq<ObjectCollider>, ballTrack: Option<Track>,
                   deltaTime: real, width: real, height: real,
                   ghost s0: seq<ObjectState>, ghost next: seq<ObjectState>)
      requires |objs| == |s0| == |next| == |colliders|
      requires forall a, b :: 0 <= a < b < |objs| ==> objs[a] != objs[b]
      requires forall j :: 0 <= j < |objs| ==> objs[j].State() == s0[j]
      requires forall j :: 0 <= j < |objs| ==> StepDefined(s0[j], ballTrack, width, height)
      requires forall j :: 0 <= j < |objs| ==>
        next[j] == StepSpec(s0[j], j, colliders, ballTrack, deltaTime, width, height, aiAccuracy)
      modifies set o | o in objs
      ensures forall j :: 0 <= j < |objs| ==> objs[j].State() == next[j]
    {
      for i := 0 to |objs|
        invariant forall j :: 0 <= j < i ==> objs[j].State() == next[j]
        invariant forall j :: i <= j < |objs| ==> objs[j].State() == s0[j]
      {
        StepObject(objs[i], i, colliders, ballTrack, deltaTime, width, height);
      }
    }

    /** The first phase of `update`: the pre-tick colliders and the ball's track. */
    method Snapshot() returns (colliders: seq<ObjectCollider>, ballTrack: Option<Track>)
      ensures colliders == Colliders(States())
      ensures ballTrack == LastBallTrack(States())
    {
      ghost var s0 := States();
      ballTrack := None;
      colliders := [];
      for j := 0 to |objects|
        invariant |colliders| == j
        invariant forall k :: 0 <= k < j ==> colliders[k] == s0[k].GetCollider()
        invariant ballTrack == LastBallTrack(s0[..j])
      {
        var obj := objects[j];
        assert s0[..j + 1][..j] == s0[..j];
        assert LastBallTrack(s0[..j + 1]) ==
          if s0[j].objType == Ball then Some(Track(s0[j].position, s0[j].velocity))
          else LastBallTrack(s0[..j]);
        if obj.objType == Ball {
          ballTrack := Some(Track(obj.position, obj.velocity));
        }
        colliders := colliders + [obj.State().GetCollider()];
      }
      assert s0[..|objects|] == s0;
    }

    /** The body of the behaviour loop for object `obj` at index `i`. */
    method StepObject(obj: Object, i: nat, colliders: seq<ObjectCollider>, ballTrack: Option<Track>,
                      deltaTime: real, width: real, height: real)
      requires i < |colliders|
      requires StepDefined(obj.State(), ballTrack, width, height)
      modifies obj
      ensures obj.State() ==
        StepSpec(old(obj.State()), i, colliders, ballTrack, deltaTime, width, height, aiAccuracy)
    {
      match obj.objType {
        case Ball =>
          StepBallObject(obj, i, colliders, deltaTime, width, height);
        case PaddleLeft =>
          StepAiObject(obj, i, colliders, ballTrack, deltaTime, height);
        case PaddleRight =>
          var delta := Vec2(obj.velocity.x * deltaTime, obj.velocity.y * deltaTime);
          obj.position := obj.position.Add(delta);
      }
    }

    /** The ball arm of the behaviour match, then `position += delta`. */
    method StepBallObject(obj: Object, i: nat, colliders: seq<ObjectCollider>,
                          deltaTime: real, width: real, height: real)
      requires i < |colliders| && obj.objType == Ball
      requires ReachesPaddleTest(obj.State(), width, height) ==>
        obj.maxVelocity.x >= 0.0 && obj.State().GetCenter().y != 0.0
      modifies obj
      ensures obj.State() == StepBall(old(obj.State()), i, colliders, deltaTime, width, height)
    {
      ghost var s := obj.State();
      var delta := Vec2(obj.velocity.x * deltaTime, obj.velocity.y * deltaTime);
      var objCollider := colliders[i];
      var center := obj.State().GetCenter();
      if center.x < 0.0 || center.x > width {
        assert OutOfBounds(s, width);
        obj.Reset(width, height);
      } else {
        assert !OutOfBounds(s, width);
        objCollider := objCollider.(min := objCollider.min.Add(delta), max := objCollider.max.Add(delta));
        if center.y < obj.size.y / 2.0 || center.y > height - obj.size.y / 2.0 {
          obj.velocity := obj.velocity.(y := -obj.velocity.y);
          delta := delta.(y := -(delta.y * 1.2));
        } else {
          delta := BounceOffOthers(obj, i, center, objCollider, colliders, delta);
        }
      }
      obj.position := obj.position.Add(delta);
    }

    /** The loop over the other objects' pre-tick colliders; returns the updated `delta`. */
    method BounceOffOthers(obj: Object, i: nat, center: Vec2, objCollider: ObjectCollider,
                           colliders: seq<ObjectCollider>, delta0: Vec2) returns (delta: Vec2)
      requires obj.maxVelocity.x >= 0.0 && center.y != 0.0
      modifies obj
      ensures obj.State() == old(obj.State()).(velocity := obj.velocity)
      ensures Motion(obj.velocity, delta) ==
        Bounces(Motion(old(obj.velocity), delta0), obj.maxVelocity, center, objCollider, colliders, i, |colliders|)
    {
      delta := delta0;
      for o := 0 to |colliders|
        invariant obj.State() == old(obj.State()).(velocity := obj.velocity)
        invariant Motion(obj.velocity, delta) ==
          Bounces(Motion(old(obj.velocity), delta0), obj.maxVelocity, center, objCollider, colliders, i, o)
      {
        if o == i {
          continue;
        }
        var other := colliders[o];
        var colliding := objCollider.IsColliding(other);
        if colliding {
          obj.velocity := obj.velocity.(x := -Clamp(obj.velocity.x * 1.15, -obj.maxVelocity.x, obj.maxVelocity.x));
          var angle := center.y - other.center.y;
          var traj := Clamp((Abs(angle) * 2.0) / center.y, 0.0, 1.0);
          obj.velocity := obj.velocity.(y := if angle >= 0.0 then traj else -traj);
          delta := Vec2(-delta.x, -delta.y);
        }
      }
    }

    /** The left paddle arm of the behaviour match, then `position += delta`. */
    method StepAiObject(obj: Object, i: nat, colliders: seq<ObjectCollider>, ballTrack: Option<Track>,
                        deltaTime: real, height: real)
      requires i < |colliders| && obj.objType == PaddleLeft
      requires ballTrack.Some? ==> obj.size.y * 0.05 <= height - obj.size.y * 1.05
      modifies obj
      ensures obj.State() ==
        StepAiPaddle(old(obj.State()), i, colliders, ballTrack, deltaTime, height, aiAccuracy)
    {
      var delta := Vec2(obj.velocity.x * deltaTime, obj.velocity.y * deltaTime);
      var objCollider := colliders[i];
      if ballTrack.Some? {
        var pos, vel := ballTrack.value.position, ballTrack.value.velocity;
        var isIncoming := if objCollider.center.x < pos.x then vel.x < 0.0 else vel.x > 0.0;
        var yTar := height / 2.0 - obj.size.y / 2.0;
        if isIncoming {
          var xDiff := objCollider.center.x - pos.x;
          var eta := xDiff / vel.x;
          yTar := pos.y + vel.y * eta;
        }
        obj.position := obj.position.(y :=
          Clamp(obj.position.y + (yTar - obj.size.y / 2.0 - obj.position.y) * (deltaTime * 0.0015 * aiAccuracy),
                obj.size.y * 0.05, height - obj.size.y * 1.05));
      }
      obj.position := obj.position.Add(delta);
    }

    /** `reset_objects`: reset every object for the given field. */
    method ResetObjects(width: real, height: real)
      requires Valid()
      modifies objects
      ensures objects == old(objects)
      ensures States() == ResetAll(old(States()), width, height)
    {
      ghost var s0 := States();
      for i := 0 to |objects|
        invariant forall j :: 0 <= j < i ==> objects[j].State() == s0[j].Reset(width, height)
        invariant forall j :: i <= j < |objects| ==> objects[j].State() == s0[j]
      {
        objects[i].Reset(width, height);
      }
    }

    /** `get_control`: the player-controlled object, which must exist. */
    method GetControl() returns (obj: Object)
      requires controlId < |objects|
      ensures obj == objects[controlId]
    {
      obj := objects[controlId];
    }
  }
}
