/**
 * Geometry, game objects and colliders of the pong simulation (src/structs.rs).
 *
 * The source's `f32` values are modelled as `real`: rounding, NaN and
 * infinities are not part of this model.
 */
module Structs {

  /** A point or a displacement in screen space (y grows downwards). */
  datatype Vec2 = Vec2(x: real, y: real) {

    /** The `+` operator: component-wise sum. `a += b` assigns `a.Add(b)` to `a`. */
    function Add(other: Vec2): Vec2 {
      Vec2(x + other.x, y + other.y)
    }

    /** The `-` operator: component-wise difference, the inverse of `Add`. */
    function Sub(other: Vec2): (r: Vec2)
      ensures r.Add(other) == this
    {
      Vec2(x - other.x, y - other.y)
    }
  }

  /** Addition and subtraction work component by component and undo each other. */
  lemma Vec2Arithmetic(a: Vec2, b: Vec2)
    ensures a.Add(b) == Vec2(a.x + b.x, a.y + b.y)
    ensures a.Sub(b) == Vec2(a.x - b.x, a.y - b.y)
    ensures a.Add(b).Sub(b) == a
    ensures a.Add(b) == b.Add(a)
  {
  }

  /** The signed area spanned by the turn a -> b -> c, the quantity `ccw` compares with zero. */
  function Cross(a: Vec2, b: Vec2, c: Vec2): real {
    (c.y - a.y) * (b.x - a.x) - (b.y - a.y) * (c.x - a.x)
  }

  /** The source's strict orientation test `ccw`. */
  predicate Ccw(a: Vec2, b: Vec2, c: Vec2) {
    (c.y - a.y) * (b.x - a.x) > (b.y - a.y) * (c.x - a.x)
  }

  /** `ccw` is the sign of a determinant, so rotating its arguments does not change it. */
  lemma CcwCyclic(a: Vec2, b: Vec2, c: Vec2)
    ensures Ccw(a, b, c) == Ccw(b, c, a)
    ensures Ccw(a, b, c) <==> Cross(a, b, c) > 0.0
  {
    assert Cross(a, b, c)
        == c.y * b.x - c.y * a.x - a.y * b.x - b.y * c.x + b.y * a.x + a.y * c.x
        == Cross(b, c, a);
  }

  /** A line segment `[Vec2; 2]` of a hitbox. */
  datatype Segment = Segment(a: Vec2, b: Vec2)

  /**
   * The intersection test applied to segment s = [a, b] and segment t = [c, d]:
   * `ccw(a, c, d)` differs from `ccw(b, c, d)` and `ccw(a, b, c)` differs from
   * `ccw(a, b, d)`. Because `ccw` is strict, a point on the other segment's line
   * counts as lying on its non-positive side, so segments that only touch can pass.
   */
  predicate SegmentsIntersect(s: Segment, t: Segment) {
    Ccw(s.a, t.a, t.b) != Ccw(s.b, t.a, t.b) && Ccw(s.a, s.b, t.a) != Ccw(s.a, s.b, t.b)
  }

  /** Over the reals the intersection test does not depend on the order of the two segments. */
  lemma SegmentsIntersectSymmetric(s: Segment, t: Segment)
    ensures SegmentsIntersect(s, t) == SegmentsIntersect(t, s)
  {
    CcwCyclic(t.a, s.a, s.b);
    CcwCyclic(t.b, s.a, s.b);
    CcwCyclic(t.a, t.b, s.a);
    CcwCyclic(t.b, s.a, t.a);
    CcwCyclic(t.a, t.b, s.b);
    CcwCyclic(t.b, s.b, t.a);
  }

  /** The three kinds of game object. */
  datatype ObjectType = Ball | PaddleLeft | PaddleRight

  /** The axis-aligned box of an object: `min` is the top-left corner, `max` the bottom-right. */
  datatype ObjectCollider = ObjectCollider(min: Vec2, max: Vec2, center: Vec2) {

    /** p is one of the four corners of the box. */
    predicate IsCorner(p: Vec2) {
      (p.x == min.x || p.x == max.x) && (p.y == min.y || p.y == max.y)
    }

    /**
     * The four boundary edges of the box, in the source's order: top (at min.y),
     * left (at min.x), bottom (at max.y) and right (at max.x).
     */
    function GetHitbox(): (r: seq<Segment>)
      ensures |r| == 4
      ensures forall k :: 0 <= k < 4 ==> IsCorner(r[k].a) && IsCorner(r[k].b)
      ensures r[0].a.y == r[0].b.y == min.y && {r[0].a.x, r[0].b.x} == {min.x, max.x}
      ensures r[1].a.x == r[1].b.x == min.x && {r[1].a.y, r[1].b.y} == {min.y, max.y}
      ensures r[2].a.y == r[2].b.y == max.y && {r[2].a.x, r[2].b.x} == {min.x, max.x}
      ensures r[3].a.x == r[3].b.x == max.x && {r[3].a.y, r[3].b.y} == {min.y, max.y}
    {
      [
        Segment(Vec2(min.x, min.y), Vec2(max.x, min.y)),
        Segment(Vec2(min.x, min.y), Vec2(min.x, max.y)),
        Segment(Vec2(min.x, max.y), Vec2(max.x, max.y)),
        Segment(Vec2(max.x, max.y), Vec2(max.x, min.y))
      ]
    }

    /** `is_colliding`: the flag loop over the 4 x 4 edge pairs, proved to decide `Collides`. */
    method IsColliding(other: ObjectCollider) returns (colliding: bool)
      ensures colliding == Collides(this, other)
    {
      var selfHitbox := GetHitbox();
      var otherHitbox := other.GetHitbox();

      colliding := false;
      for i := 0 to 4
        invariant colliding <==> exists p, q :: p < i && EdgesCross(this, other, p, q)
      {
        for j := 0 to 4
          invariant colliding <==>
            (exists p, q :: p < i && EdgesCross(this, other, p, q)) ||
            (exists q :: q < j && EdgesCross(this, other, i, q))
        {
          var a, b := selfHitbox[i].a, selfHitbox[i].b;
          var c, d := otherHitbox[j].a, otherHitbox[j].b;
          var intersect := Ccw(a, c, d) != Ccw(b, c, d) && Ccw(a, b, c) != Ccw(a, b, d);
          assert intersect == EdgesCross(this, other, i, j);
          if !colliding {
            colliding := intersect;
          }
        }
      }
    }
  }

  /** Edge p of `self`'s hitbox intersects edge q of `other`'s hitbox. */
  predicate EdgesCross(self: ObjectCollider, other: ObjectCollider, p: int, q: int) {
    0 <= p < 4 && 0 <= q < 4 && SegmentsIntersect(self.GetHitbox()[p], other.GetHitbox()[q])
  }

  /** The collision relation decided by `is_colliding`: some pair of edges intersects. */
  predicate Collides(self: ObjectCollider, other: ObjectCollider) {
    exists p, q :: 0 <= p < 4 && 0 <= q < 4 && EdgesCross(self, other, p, q)
  }

  /** Collision does not depend on which of the two colliders asks. */
  lemma CollidesSymmetric(a: ObjectCollider, b: ObjectCollider)
    ensures Collides(a, b) == Collides(b, a)
  {
    if Collides(a, b) {
      var p, q :| 0 <= p < 4 && 0 <= q < 4 && EdgesCross(a, b, p, q);
      SegmentsIntersectSymmetric(a.GetHitbox()[p], b.GetHitbox()[q]);
      assert EdgesCross(b, a, q, p);
    }
    if Collides(b, a) {
      var q, p :| 0 <= q < 4 && 0 <= p < 4 && EdgesCross(b, a, q, p);
      SegmentsIntersectSymmetric(b.GetHitbox()[q], a.GetHitbox()[p]);
      assert EdgesCross(a, b, p, q);
    }
  }

  /** The value of a game object: its kind, top-left position, size and velocities. */
  datatype ObjectState = ObjectState(
    objType: ObjectType,
    position: Vec2,
    size: Vec2,
    velocity: Vec2,
    maxVelocity: Vec2)
  {
    /** `get_center`: the point midway between the top-left and the bottom-right corner. */
    function GetCenter(): (c: Vec2)
      ensures c.Sub(position) == position.Add(size).Sub(c)
    {
      Vec2(position.x + size.x / 2.0, position.y + size.y / 2.0)
    }

    /** `get_collider` / `ObjectCollider::new`: the box spanned by position and size. */
    function GetCollider(): (c: ObjectCollider)
      ensures c.min == position && c.max == position.Add(size)
      ensures c.center == GetCenter()
      ensures c.center == Vec2(c.min.x + (c.max.x - c.min.x) / 2.0, c.min.y + (c.max.y - c.min.y) / 2.0)
      ensures size.x >= 0.0 ==> c.min.x <= c.max.x
      ensures size.y >= 0.0 ==> c.min.y <= c.max.y
    {
      ObjectCollider(position, position.Add(size), GetCenter())
    }

    /**
     * `reset`: the canonical layout for a field of the given width and height.
     * The ball is centred and given its starting speed; a paddle is made a
     * quarter of the field high, centred vertically and inset 5% from its side.
     */
    function Reset(width: real, height: real): (r: ObjectState)
      ensures r.objType == objType
      ensures objType == Ball ==>
        && r.size == size
        && r.velocity == Vec2(width / 3200.0, 0.0)
        && r.maxVelocity == Vec2(width / 400.0, height / 400.0)
        && r.GetCenter() == Vec2(width / 2.0, height / 2.0)
      ensures objType != Ball ==>
        && r.size == Vec2(size.x, 0.25 * height)
        && r.velocity == velocity
        && r.maxVelocity == maxVelocity
        && r.position.y == 0.375 * height
        && r.position.y + r.size.y == 0.625 * height
      ensures objType == PaddleLeft ==> r.position.x == 0.05 * width
      ensures objType == PaddleRight ==> r.position.x + r.size.x == 0.95 * width
    {
      match objType
      case Ball =>
        this.(
          velocity := Vec2(width / 3200.0, 0.0),
          maxVelocity := Vec2(width / 400.0, height / 400.0),
          position := Vec2(width / 2.0 - size.x / 2.0, height / 2.0 - size.y / 2.0))
      case PaddleLeft =>
        var newSize := size.(y := height * 0.25);
        this.(size := newSize, position := Vec2(width * 0.05, height / 2.0 - newSize.y / 2.0))
      case PaddleRight =>
        var newSize := size.(y := height * 0.25);
        this.(size := newSize, position := Vec2(width * 0.95 - newSize.x, height / 2.0 - newSize.y / 2.0))
    }
  }

  /** The object's box lies inside the field [0, width] x [0, height]. */
  predicate InField(s: ObjectState, width: real, height: real) {
    var c := s.GetCollider();
    0.0 <= c.min.x && c.max.x <= width && 0.0 <= c.min.y && c.max.y <= height
  }

  /** Resetting twice with the same field dimensions is the same as resetting once. */
  lemma ResetIdempotent(s: ObjectState, width: real, height: real)
    ensures s.Reset(width, height).Reset(width, height) == s.Reset(width, height)
  {
  }

  /** After a reset a paddle no wider than 95% of the field lies inside the field. */
  lemma PaddleResetInField(s: ObjectState, width: real, height: real)
    requires s.objType != Ball
    requires 0.0 <= height && 0.0 <= s.size.x <= 0.95 * width
    ensures InField(s.Reset(width, height), width, height)
  {
  }

  /** After a reset a ball that fits in the field lies inside the field. */
  lemma BallResetInField(s: ObjectState, width: real, height: real)
    requires s.objType == Ball
    requires 0.0 <= s.size.x <= width && 0.0 <= s.size.y <= height
    ensures InField(s.Reset(width, height), width, height)
  {
  }

  /** A game object; the simulation and the host change its fields in place. */
  class Object {
    var objType: ObjectType
    var position: Vec2
    var size: Vec2
    var velocity: Vec2
    var maxVelocity: Vec2

    /** The object's current value. */
    function State(): ObjectState
      reads this
    {
      ObjectState(objType, position, size, velocity, maxVelocity)
    }

    /** `Object::new`: at the origin, of unit size, at rest, with speed caps (2, 2). */
    constructor (objType: ObjectType)
      ensures State() == ObjectState(objType, Vec2(0.0, 0.0), Vec2(1.0, 1.0), Vec2(0.0, 0.0), Vec2(2.0, 2.0))
    {
      this.objType := objType;
      position := Vec2(0.0, 0.0);
      size := Vec2(1.0, 1.0);
      velocity := Vec2(0.0, 0.0);
      maxVelocity := Vec2(2.0, 2.0);
    }

    /** `set_size`: the builder step that replaces the size and hands the object back. */
    method SetSize(x: real, y: real) returns (self: Object)
      modifies this
      ensures self == this
      ensures State() == old(State()).(size := Vec2(x, y))
    {
      size := Vec2(x, y);
      self := this;
    }

    /** `reset`: assigns the canonical layout field by field. */
    method Reset(width: real, height: real)
      modifies this
      ensures State() == old(State()).Reset(width, height)
    {
      match objType {
        case Ball =>
          velocity := Vec2(width / 3200.0, 0.0);
          maxVelocity := Vec2(width / 400.0, height / 400.0);
          position := Vec2(width / 2.0 - size.x / 2.0, height / 2.0 - size.y / 2.0);
        case PaddleLeft =>
          size := size.(y := height * 0.25);
          position := Vec2(width * 0.05, height / 2.0 - size.y / 2.0);
        case PaddleRight =>
          size := size.(y := height * 0.25);
          position := Vec2(width * 0.95 - size.x, height / 2.0 - size.y / 2.0);
      }
    }
  }

  /** Boxes that only share an edge collide: the strict `ccw` lets touching segments pass. */
  lemma ExampleTouchingBoxesCollide()
    ensures Collides(
      ObjectCollider(Vec2(0.0, 0.0), Vec2(1.0, 1.0), Vec2(0.5, 0.5)),
      ObjectCollider(Vec2(1.0, 0.0), Vec2(2.0, 1.0), Vec2(1.5, 0.5)))
  {
    var left := ObjectCollider(Vec2(0.0, 0.0), Vec2(1.0, 1.0), Vec2(0.5, 0.5));
    var right := ObjectCollider(Vec2(1.0, 0.0), Vec2(2.0, 1.0), Vec2(1.5, 0.5));
    assert EdgesCross(left, right, 0, 1);
  }

  /** A 25 x 25 ball at (100, 100) against a paddle spanning (90, 80)-(115, 220):
   *  the ball's top edge crosses the paddle's right edge. */
  lemma ExampleBallTouchesPaddle()
    ensures Collides(
      ObjectCollider(Vec2(100.0, 100.0), Vec2(125.0, 125.0), Vec2(112.5, 112.5)),
      ObjectCollider(Vec2(90.0, 80.0), Vec2(115.0, 220.0), Vec2(102.5, 150.0)))
  {
    var ball := ObjectCollider(Vec2(100.0, 100.0), Vec2(125.0, 125.0), Vec2(112.5, 112.5));
    var paddle := ObjectCollider(Vec2(90.0, 80.0), Vec2(115.0, 220.0), Vec2(102.5, 150.0));
    assert EdgesCross(ball, paddle, 0, 3);
  }
}
