/**
 * The three-component vector of examples/src/vector.ts: a mutable object
 * whose only operation replaces it by its cross product with another vector.
 * `Vec` is the value such an object holds; `Cross` and `Dot` are the
 * specification against which the in-place operation is proved.
 */
module Vectors {

  /** The value (x, y, z) held by a Vector3. */
  datatype Vec = Vec(x: real, y: real, z: real)

  const Zero: Vec := Vec(0.0, 0.0, 0.0)

  function Neg(a: Vec): Vec {
    Vec(-a.x, -a.y, -a.z)
  }

  function Dot(a: Vec, b: Vec): real {
    a.x * b.x + a.y * b.y + a.z * b.z
  }

  /** The right-handed cross product a x b; a vector crossed with itself is zero. */
  function Cross(a: Vec, b: Vec): (r: Vec)
    ensures a == b ==> r == Zero
  {
    Vec(a.y * b.z - a.z * b.y,
        a.z * b.x - a.x * b.z,
        a.x * b.y - a.y * b.x)
  }

  /** The cross product is orthogonal to its left operand. */
  lemma CrossOrthogonalLeft(a: Vec, b: Vec)
    ensures Dot(Cross(a, b), a) == 0.0
  {
  }

  /** The cross product is orthogonal to its right operand. */
  lemma CrossOrthogonalRight(a: Vec, b: Vec)
    ensures Dot(Cross(a, b), b) == 0.0
  {
  }

  /** Swapping the operands negates the cross product. */
  lemma CrossAnticommutes(a: Vec, b: Vec)
    ensures Cross(b, a) == Neg(Cross(a, b))
  {
  }

  class Vector3 {
    var x: real
    var y: real
    var z: real

    /** The value this object currently holds. */
    function Value(): Vec
      reads this
    {
      Vec(x, y, z)
    }

    constructor (x: real, y: real, z: real)
      ensures Value() == Vec(x, y, z)
    {
      this.x := x;
      this.y := y;
      this.z := z;
    }

    /**
     * Replaces this vector by (this x v), every component computed from the
     * values before the call (so `v` may be `this` itself), and returns this.
     */
    method Multiply(v: Vector3) returns (r: Vector3)
      modifies this
      ensures r == this
      ensures Value() == Cross(old(Value()), old(v.Value()))
      ensures v != this ==> v.Value() == old(v.Value())
    {
      var nx := y * v.z - z * v.y;
      var ny := z * v.x - x * v.z;
      var nz := x * v.y - y * v.x;
      x := nx;
      y := ny;
      z := nz;
      r := this;
    }

    /** The components in the order x, y, z. */
    method ToArray() returns (r: seq<real>)
      ensures |r| == 3 && r[0] == x && r[1] == y && r[2] == z
    {
      r := [x, y, z];
    }
  }

  /** The aliased call `a.multiply(a)` leaves `a` holding the zero vector. */
  method MultiplySelf(a: Vector3)
    modifies a
    ensures a.Value() == Zero
  {
    var _ := a.Multiply(a);
  }

  /**
   * Crossing a fresh copy of u with w, and a fresh copy of w with u, gives
   * opposite vectors; neither u nor w is changed.
   */
  method CrossCopies(u: Vector3, w: Vector3) returns (p: Vec, q: Vec)
    ensures p == Neg(q)
    ensures p == Cross(u.Value(), w.Value())
  {
    var a := new Vector3(u.x, u.y, u.z);
    var b := new Vector3(w.x, w.y, w.z);
    var _ := a.Multiply(w);
    var _ := b.Multiply(u);
    p, q := a.Value(), b.Value();
    CrossAnticommutes(w.Value(), u.Value());
  }

  /**
   * The new value of the receiver is orthogonal both to its old value and to
   * the argument.
   */
  method MultiplyOrthogonal(u: Vector3, v: Vector3)
    modifies u
    ensures Dot(u.Value(), old(u.Value())) == 0.0
    ensures Dot(u.Value(), old(v.Value())) == 0.0
  {
    var _ := u.Multiply(v);
    CrossOrthogonalLeft(old(u.Value()), old(v.Value()));
    CrossOrthogonalRight(old(u.Value()), old(v.Value()));
  }
}
