# Pong simulation core in Dafny

This project models the simulation engine of a small pong game: the objects
on the field (one ball, a left paddle driven by an AI and a right paddle driven
by the player), their axis-aligned colliders, and the per-frame update that
moves them.

- `structs.dfy` (module `Structs`, from `src/structs.rs`):
  - 2D vectors;
  - the strict orientation test `ccw`, and the edge-intersection collision
    test over the four edges of each box;
  - the object value `ObjectState` with its centre, collider and per-kind
    reset layout;
  - the mutable `Object` class.
- `game.dfy` (module `Game`, from `src/game.rs`):
  - the engine class `GameState`;
  - a pure specification `Tick` of one call to `update`.

  `update` takes a snapshot of every object's collider and of the last
  ball's position and velocity. It then steps each object in place, in order:
  - a ball out of bounds is reset;
  - a ball in the top or bottom band bounces off the wall;
  - otherwise the ball is tested against every other pre-tick collider and
    bounces off each one it hits;
  - the left paddle follows the ball's predicted intercept;
  - every object finally moves by its displacement `delta`.

  `GameState.Update` is proved to leave the objects exactly as `Tick`
  prescribes. `ResetObjects` is proved against `ResetAll`.
- `game_lemmas.dfy` (module `GameLemmas`): what a tick does to the ball, the AI
  paddle and the whole field, stated over the specification functions. It also
  gives an invariant, `Playable`, that `reset_objects` establishes and every tick
  keeps, so the precondition of `update` holds frame after frame.

`f32` values are modelled as `real`. The places where the Rust code would
panic (`f32::clamp` with `min > max`) or divide become preconditions.

## Model

| member | source | states |
|---|---|---|
| Structs.Vec2.Add | src/structs.rs:42-50 | the `+` operator: the component-wise sum (also what `+=` assigns, src/structs.rs:52-56) |
| Structs.Vec2.Sub | src/structs.rs:58-66 | subtracting then adding back `other` gives the original vector (`-` undoes `+`) |
| Structs.Vec2Arithmetic | src/structs.rs:42-66 | `+` and `-` work component by component, `(a + b) - b == a`, and `+` commutes |
| Structs.Ccw | src/structs.rs:187-189 | the strict orientation test: true when the turn a -> b -> c has positive signed area |
| Structs.CcwCyclic | src/structs.rs:187-189 | `ccw` is the sign of a determinant: it holds exactly when the cross product is positive, and rotating its arguments does not change it |
| Structs.SegmentsIntersect | src/structs.rs:226 | segments ab and cd pass when `ccw(a,c,d)` differs from `ccw(b,c,d)` and `ccw(a,b,c)` differs from `ccw(a,b,d)`; because `ccw` is strict, an endpoint on the other segment's line counts as on its non-positive side, so touching segments can pass |
| Structs.SegmentsIntersectSymmetric | src/structs.rs:226 | the segment intersection test gives the same answer with the two segments exchanged |
| Structs.ObjectCollider.GetHitbox | src/structs.rs:208-215 | four edges, each with both endpoints at corners of the box: top at `min.y`, left at `min.x`, bottom at `max.y`, right at `max.x`, each spanning the box |
| Structs.ObjectCollider.IsColliding | src/structs.rs:218-233 | the nested flag loop returns true exactly when some edge of `self` and some edge of `other` pass the `ccw` intersection test |
| Structs.EdgesCross | src/structs.rs:223-226 | edge p of `self`'s hitbox and edge q of `other`'s hitbox pass the intersection test |
| Structs.Collides | src/structs.rs:218-233 | two colliders collide when some edge of the first hitbox and some edge of the second pass the intersection test |
| Structs.CollidesSymmetric | src/structs.rs:218-233 | the collision test does not depend on which collider asks |
| Structs.ObjectState.GetCenter | src/structs.rs:176-181 | the centre is equidistant from `position` and `position + size` |
| Structs.ObjectState.GetCollider | src/structs.rs:200-206 | `get_collider` (src/structs.rs:171-173) builds the box of `ObjectCollider::new`: `min == position`, `max == position + size`, `center == get_center() == min + (max - min)/2`, and `min <= max` componentwise when the size is non-negative |
| Structs.ObjectState.Reset | src/structs.rs:137-168 | kind kept. Ball: size kept, velocity `(w/3200, 0)`, max velocity `(w/400, h/400)`, centre `(w/2, h/2)`. Paddles: `size.y == 0.25h`, `size.x`, velocity and max velocity kept, occupying `[0.375h, 0.625h]`. Left x is `0.05w`; the right paddle's right edge is at `0.95w` |
| Structs.ResetIdempotent | src/structs.rs:137-168 | resetting twice for the same field is resetting once |
| Structs.PaddleResetInField | src/structs.rs:153-166 | a reset paddle with `0 <= size.x <= 0.95w` lies inside `[0,w] x [0,h]` |
| Structs.BallResetInField | src/structs.rs:139-152 | a reset ball no larger than the field lies inside it |
| Structs.Object.constructor | src/structs.rs:120-128 | position `(0,0)`, size `(1,1)`, velocity `(0,0)`, max velocity `(2,2)` |
| Structs.Object.SetSize | src/structs.rs:131-134 | only `size` changes, to `(x, y)`, and the same object is handed back |
| Structs.Object.Reset | src/structs.rs:137-168 | the object's new value is `ObjectState.Reset` of its old value |
| Structs.ExampleTouchingBoxesCollide | src/structs.rs:218-233 | the boxes (0,0)-(1,1) and (1,0)-(2,1), which only share an edge, collide |
| Structs.ExampleBallTouchesPaddle | src/structs.rs:218-233 | the box (100,100)-(125,125) collides with the box (90,80)-(115,220) |
| Game.Clamp | src/game.rs:81 | `f32::clamp` (for `lo <= hi`): the result is in `[lo, hi]`, is `v` inside, `lo` below and `hi` above |
| Game.ClampMonotone | src/game.rs:124 | clamping preserves order |
| Game.Displacement | src/game.rs:45-48 | this tick's movement: `velocity * delta_time` in each component |
| Game.Colliders | src/game.rs:28-35 | the snapshot has one collider per object and `colliders[i]` is object `i`'s pre-tick collider |
| Game.LastBallTrack | src/game.rs:25-33 | the ball track the snapshot loop leaves: the position and velocity of the last ball, or none |
| Game.LastBallTrackIsLastBall | src/game.rs:25-33 | the ball track is absent exactly when there is no ball; otherwise it is the position and velocity of the last ball in the sequence |
| Game.OutOfBounds | src/game.rs:55 | the ball's centre x is left of 0 or right of the field width |
| Game.InWallBand | src/game.rs:65 | the ball's centre y is within half its height of the top or bottom edge |
| Game.ReachesPaddleTest | src/game.rs:55-65 | the ball is neither out of bounds (line 55) nor in the wall band (line 65), so it enters the paddle loop |
| Game.Moved | src/game.rs:61-62 | the ball's pre-tick collider with both corners moved by `delta` |
| Game.Bounce | src/game.rs:81-92 | after one hit, `abs(vx)` is `min(1.15 abs(vx), max_velocity.x)`, `abs(vy) <= 1`, and both components of `delta` are negated |
| Game.IsHit | src/game.rs:72-79 | collider o is not the ball's own and the ball's moved collider collides with it |
| Game.Bounces | src/game.rs:71-94 | the ball's velocity and `delta` after the paddle loop has visited the first k colliders, skipping the ball's own and bouncing off each one hit |
| Game.StepBall | src/game.rs:52-97 | the ball's kind and size are unchanged by its step |
| Game.IsIncoming | src/game.rs:103-107 | incoming exactly when the paddle is left of the ball and `vel.x < 0`, or not left of it and `vel.x > 0`; incoming implies `vel.x != 0`, so the division at line 115 is defined |
| Game.AiTarget | src/game.rs:110-117 | when the ball is not incoming the target is `height/2 - size.y/2` |
| Game.AiFollow | src/game.rs:121-124 | the new y lies in `[0.05 size.y, height - 1.05 size.y]`; with a zero step factor (`ai_accuracy = 0`) only the clamp acts |
| Game.StepAiPaddle | src/game.rs:99-125 | the AI paddle's kind, size, velocity and max velocity are unchanged |
| Game.StepSpec | src/game.rs:38-130 | one iteration keeps kind and size; objects other than the ball keep velocity and max velocity |
| Game.TickPrefixAt | src/game.rs:38-130 | entry `j` of the first `n` iterations is iteration `j` applied to object `j`'s pre-tick state |
| Game.TickPrefix | src/game.rs:38-130 | the first n iterations of the behaviour loop, each stepping one object against the same pre-tick snapshot; it has n entries |
| Game.Tick | src/game.rs:24-131 | the objects after one `update`: one per object, each stepped against the pre-tick colliders and ball track |
| Game.TickAt | src/game.rs:24-131 | object `i` after the tick is iteration `i` on its pre-tick state, with the pre-tick colliders and ball track |
| Game.ResetAll | src/game.rs:134-138 | every object is reset and the number of objects is kept |
| Game.GameState.constructor | src/game.rs:15-21 | no objects, `control_id == 0`, `ai_accuracy == 0.5` |
| Game.GameState.Update | src/game.rs:24-131 | the same objects stay in place and their new values are `Tick` of their old values |
| Game.GameState.StepAll | src/game.rs:38-130 | after the loop every object `j` holds iteration `j`'s result; each iteration changes only its own object |
| Game.GameState.Snapshot | src/game.rs:25-35 | the loop builds exactly `Colliders` and `LastBallTrack` of the current states |
| Game.GameState.StepObject | src/game.rs:39-129 | the loop body turns the object's value into `StepSpec` of its old value |
| Game.GameState.StepBallObject | src/game.rs:52-97 | the ball arm followed by line 129 gives `StepBall` of the old value |
| Game.GameState.BounceOffOthers | src/game.rs:71-94 | only the velocity changes, and velocity and `delta` end as the recursive `Bounces` over all colliders |
| Game.GameState.StepAiObject | src/game.rs:99-125 | the AI arm followed by line 129 gives `StepAiPaddle` of the old value |
| Game.GameState.ResetObjects | src/game.rs:134-138 | the objects stay in place and their new values are `ResetAll` of the old ones |
| Game.GameState.GetControl | src/game.rs:141-143 | returns `objects[control_id]`, which must exist |
| GameLemmas.BounceDirection | src/game.rs:86-88 | after a hit `vy >= 0` exactly when the ball's `center.y` is at least the other object's `center.y`, and `abs(vy) == min(2 abs(angle)/center.y, 1)` |
| GameLemmas.BounceReversesX | src/game.rs:81 | a hit never leaves `vx` with the same sign as before |
| GameLemmas.BouncesDelta | src/game.rs:71-94 | after the paddle loop `delta` is unchanged for an even number of hits and negated for an odd number |
| GameLemmas.BouncesUntouched | src/game.rs:71-94 | with no hit the loop changes neither velocity nor `delta` |
| GameLemmas.BouncesLastHit | src/game.rs:71-94 | after at least one hit the outcome is the bounce off the last object hit; no later object is hit |
| GameLemmas.BouncesCapped | src/game.rs:81-88 | after any hit `abs(vx) <= max_velocity.x` and `abs(vy) <= 1` |
| GameLemmas.HitCountBefore | src/game.rs:71-79 | a hit object contributes to the hit count of every longer prefix |
| GameLemmas.BouncesSingleHit | src/game.rs:71-94 | with exactly one hit, `delta` is negated, `vx` turns back and grows by 15% up to its cap |
| GameLemmas.BallCenterBelowTop | src/game.rs:65-87 | when the paddle test runs for a ball of positive height, `center.y > 0`, so the division at line 87 is defined |
| GameLemmas.BallLeavesField | src/game.rs:55-57 | an out-of-bounds ball gets velocity `(w/3200, 0)` and max velocity `(w/400, h/400)`; its centre is the field centre plus the pre-reset `velocity * delta_time` |
| GameLemmas.BallWallBounce | src/game.rs:65-68 | in the wall band `vy` is negated, `vx` is kept, x moves by `vx dt` and y moves by `-1.2 vy dt` |
| GameLemmas.BallFreeFlight | src/game.rs:71-94 | a ball that hits nothing moves by `velocity * delta_time` with nothing else changed |
| GameLemmas.BallSingleHit | src/game.rs:71-94 | a ball hitting one object moves back by `velocity * delta_time`, `vx` reverses and grows by 15% up to its cap, and the caps are kept |
| GameLemmas.BallHitCapped | src/game.rs:71-94 | after any hits `abs(vx) <= max_velocity.x` and `abs(vy) <= 1` (not `max_velocity.y`), and `max_velocity` is kept |
| GameLemmas.IsIncomingTowards | src/game.rs:103-107 | away from the ball's column, incoming means `(paddle x - ball x) * vel.x > 0` |
| GameLemmas.AiTargetOnPath | src/game.rs:113-117 | an incoming ball's target is where its straight path, at some time `t >= 0`, crosses the paddle's centre column |
| GameLemmas.AiTargetLevel | src/game.rs:113-117 | an incoming ball with `vel.y == 0` is targeted at its own y |
| GameLemmas.AiFollowBetween | src/game.rs:121-124 | with a step factor in `[0, 1]` the new y lies between the clamped old y and the clamped aim point `y_tar - size.y/2` |
| GameLemmas.ClampBetween | src/game.rs:124 | clamping a value between two others gives a value between their clamps |
| GameLemmas.ScaledBetween | src/game.rs:121-123 | a step of a fraction in `[0, 1]` of the way from y to g ends between y and g |
| GameLemmas.AiDefaultAim | src/game.rs:109-124 | with no incoming ball and a full step, the paddle's centre goes to `height/2 - size.y/2`, half a paddle above the field centre |
| GameLemmas.AiFollowAligned | src/game.rs:121-124 | a paddle already at its aim point and inside the margin stays put |
| GameLemmas.AiPaddleWithoutBall | src/game.rs:99 | with no ball the left paddle only moves by `velocity * delta_time` |
| GameLemmas.AiPaddleInField | src/game.rs:121-124 | a left paddle with zero y velocity ends in `[0.05 size.y, height - 1.05 size.y]`; its x moves by `vx dt` |
| GameLemmas.TickKeepsShape | src/game.rs:24-131 | a tick keeps the number of objects, every kind and every size, and the velocities of every object but the ball |
| GameLemmas.TickRightPaddle | src/game.rs:126-129 | the right paddle only moves by `velocity * delta_time` |
| GameLemmas.TickWithoutBall | src/game.rs:24-131 | with no ball every object only moves by `velocity * delta_time` |
| GameLemmas.ResetAllIdempotent | src/game.rs:134-138 | `reset_objects` twice is `reset_objects` once |
| GameLemmas.ResetAllInField | src/game.rs:134-138 | after `reset_objects` every object that fits lies inside the field |
| GameLemmas.ResetAllTickDefined | src/game.rs:24-138 | the first `update` after `reset_objects` on a field of positive height never panics or divides by zero |
| GameLemmas.Playable | src/game.rs:24-131 | the invariant that keeps `update` defined: every ball has `size.y > 0` and `max_velocity.x >= 0`, and every left paddle has `0.05 size.y <= height - 1.05 size.y` |
| GameLemmas.PlayableTickDefined | src/game.rs:24-131 | on a playable field (balls of positive height with `max_velocity.x >= 0`, left paddles fitting their clamp margin) `update` never panics or divides by zero |
| GameLemmas.TickKeepsPlayable | src/game.rs:24-131 | on a field of non-negative width `update` keeps a playable field playable, so every later `update` is defined too |
| GameLemmas.ResetAllPlayable | src/game.rs:134-138 | `reset_objects` on a field of non-negative size makes it playable when every ball has positive height |

## Left out

- `src/main.rs` is not part of this model. It holds the window, the shaders, the draw calls, frame timing and mouse input, which are all platform I/O.
- `Vertex` and `Rect` (src/structs.rs:17-21, 70-98) build GPU buffers and are not modelled.
- `f32` rounding, NaN and infinities are not modelled: values are `real`.
- `Vec2::new` is the datatype constructor `Vec2(x, y)`. `Vec2::set` and `+=` (`AddAssign`) appear as assignments of a new vector value (`a := a.Add(b)`) at their use sites, not as separate members.
- Game.StepDefined: the preconditions `max_velocity.x >= 0` and `center.y != 0` are demanded whenever the ball reaches the paddle test, even when no object is hit and neither the clamp nor the division runs; this part is an over-approximation of where the code can panic (`clamp`) or produce inf/NaN (the division at src/game.rs:87). The left paddle's clamp bounds are demanded whenever a ball exists, which is exact: src/game.rs:99-124 calls that clamp on every left-paddle iteration with a ball.
- Game.GameState.Update: `GameState` stores its objects by reference, and `Valid()` (no object appears twice) stands in for Rust's exclusive ownership of the `Vec<Object>`.
- Game.GameState.GetControl: returns the object reference itself, standing for the `&mut Object` it hands out; what callers then do with it belongs to the host.
- The AI's default target (src/game.rs:110) is `height/2 - size.y/2`, the top of a centred paddle, but line 122 subtracts `size.y/2` once more. The paddle's centre therefore heads half a paddle above the field centre, not to the centre that the comment at line 109 names. The model keeps the code's behaviour (GameLemmas.AiDefaultAim states it) and claims no correction, since the intended target is not evident from the code.
- The AI step factor is `delta_time * 0.0015 * ai_accuracy`. Only the case of a factor in `[0, 1]` is given the "between" property (GameLemmas.AiFollowBetween); larger factors overshoot, which the code allows.
- A pause flag, quarter-of-field redirection of the AI target, and skipping `delta` after a ball reset are not in the code and are not modelled. The code applies `delta` to a reset ball (src/game.rs:129), and the model follows the code.
