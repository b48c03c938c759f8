/**
 * The class Matrix4 of examples/src/matrix.ts: a 4x4 matrix held as 16
 * numbers in row-major order in the field `data`. Every state-changing
 * operation, when it succeeds, installs a freshly built array in `data`
 * (none writes into the array it finds there). Every one except
 * SetLookAtRotation returns `this`, so calls can be chained. Reverse and
 * ToWebGPUMatrix only read the matrix.
 */
module Matrix {
  import opened Wrappers
  import opened Vectors
  import opened MatrixSpec

  class Matrix4 {
    var data: array<real>

    ghost predicate Valid()
      reads this
    {
      data.Length == 16
    }

    /** The matrix this object holds, row by row. */
    ghost function Entries(): (r: seq<real>)
      reads this, data
      requires Valid()
      ensures |r| == 16
    {
      data[..]
    }

    /** A fresh matrix is the identity. */
    constructor ()
      ensures Valid() && Entries() == Identity()
    {
      data := new real[] [
        1.0, 0.0, 0.0, 0.0,
        0.0, 1.0, 0.0, 0.0,
        0.0, 0.0, 1.0, 0.0,
        0.0, 0.0, 0.0, 1.0];
    }

    /** The entries in column-major order, read slot by slot; `data` is not changed. */
    method Reverse() returns (res: seq<real>)
      requires Valid()
      ensures res == Transposed(Entries())
    {
      res := [];
      for i := 0 to 16
        invariant |res| == i
        invariant forall k :: 0 <= k < i ==> res[k] == data[k % 4 * 4 + k / 4]
      {
        res := res + [data[i % 4 * 4 + i / 4]];
      }
      forall k | 0 <= k < 16
        ensures res[k] == Transposed(Entries())[k]
      {
        TransposedIndex(Entries(), k);
      }
    }

    method SetTranslate(x: real, y: real, z: real) returns (r: Matrix4)
      modifies this
      ensures r == this && Valid() && fresh(data)
      ensures Entries() == Translation(x, y, z)
    {
      data := new real[] [
        1.0, 0.0, 0.0, x,
        0.0, 1.0, 0.0, y,
        0.0, 0.0, 1.0, z,
        0.0, 0.0, 0.0, 1.0];
      r := this;
    }

    method SetScale(x: real, y: real, z: real) returns (r: Matrix4)
      modifies this
      ensures r == this && Valid() && fresh(data)
      ensures Entries() == Scaling(x, y, z)
    {
      data := new real[] [
        x,   0.0, 0.0, 0.0,
        0.0, y,   0.0, 0.0,
        0.0, 0.0, z,   0.0,
        0.0, 0.0, 0.0, 1.0];
      r := this;
    }

    method SetRotateZ(angle: real, math: MathLib) returns (r: Matrix4)
      modifies this
      ensures r == this && Valid() && fresh(data)
      ensures Entries() == RotationZ(angle, math)
    {
      var radian := PI * angle / 180.0;
      var cos := math.cos(radian);
      var sin := math.sin(radian);
      data := new real[] [
        cos, -1.0 * sin, 0.0, 0.0,
        sin, cos,        0.0, 0.0,
        0.0, 0.0,        1.0, 0.0,
        0.0, 0.0,        0.0, 1.0];
      r := this;
    }

    method SetRotateX(angle: real, math: MathLib) returns (r: Matrix4)
      modifies this
      ensures r == this && Valid() && fresh(data)
      ensures Entries() == RotationX(angle, math)
    {
      var radian := PI * angle / 180.0;
      var cos := math.cos(radian);
      var sin := math.sin(radian);
      data := new real[] [
        1.0, 0.0, 0.0,        0.0,
        0.0, cos, -1.0 * sin, 0.0,
        0.0, sin, cos,        0.0,
        0.0, 0.0, 0.0,        1.0];
      r := this;
    }

    method SetRotateY(angle: real, math: MathLib) returns (r: Matrix4)
      modifies this
      ensures r == this && Valid() && fresh(data)
      ensures Entries() == RotationY(angle, math)
    {
      var radian := PI * angle / 180.0;
      var cos := math.cos(radian);
      var sin := math.sin(radian);
      data := new real[] [
        cos,        0.0, sin, 0.0,
        0.0,        1.0, 0.0, 0.0,
        -1.0 * sin, 0.0, cos, 0.0,
        0.0,        0.0, 0.0, 1.0];
      r := this;
    }

    /**
     * The right-handed view matrix from eye towards target with the given up:
     * the rotation onto the camera's axes followed by translate(-eye).
     */
    method SetLookAt(eye: Vec, target: Vec, up: Vec, math: MathLib) returns (r: Matrix4)
      requires LookAtDefined(eye, target, up, math)
      modifies this
      ensures r == this && Valid() && fresh(data)
      ensures Entries() == LookAtView(eye, target, up, math)
    {
      SetLookAtRotation(eye, target, up, math);
      r := Translate(-eye.x, -eye.y, -eye.z);
    }

    /**
     * The first part of setLookAt: normalise the viewing direction f, take
     * s := f x up normalised and u := s x f, and install the rows s, u, -f.
     */
    method SetLookAtRotation(eye: Vec, target: Vec, up: Vec, math: MathLib)
      requires LookAtDefined(eye, target, up, math)
      modifies this
      ensures Valid() && fresh(data) && Entries() == LookAtRotation(eye, target, up, math)
    {
      var f := Direction(eye, target);
      var rlf := 1.0 / math.sqrt(Dot(f, f));
      f := Vec(f.x * rlf, f.y * rlf, f.z * rlf);
      assert f == Forward(eye, target, math);

      var s := Cross(f, up);
      var rls := 1.0 / math.sqrt(Dot(s, s));
      s := Vec(s.x * rls, s.y * rls, s.z * rls);
      assert s == Side(eye, target, up, math);

      var u := Cross(s, f);
      assert u == TrueUp(eye, target, up, math);

      data := new real[] [
        s.x,  s.y,  s.z,  0.0,
        u.x,  u.y,  u.z,  0.0,
        -f.x, -f.y, -f.z, 0.0,
        0.0,  0.0,  0.0,  1.0];
      forall k | 0 <= k < 16
        ensures Entries()[k] == LookAtRotation(eye, target, up, math)[k]
      {
        Slots(k);
      }
    }

    /**
     * The symmetric perspective projection. Degenerate arguments are refused
     * in the source's order, and then the matrix is left as it was.
     */
    method SetPerspective(fov: real, aspect: real, near: real, far: real, math: MathLib)
      returns (r: Result<Matrix4, FrustumError>)
      requires Valid()
      modifies this
      ensures Valid()
      ensures r.Failure? <==> PerspectiveError(fov, aspect, near, far, math).Some?
      ensures r.Failure? ==> r.error == PerspectiveError(fov, aspect, near, far, math).value
                             && data == old(data)
      ensures r.Success? ==> r.value == this && fresh(data)
                             && Entries() == Perspective(fov, aspect, near, far, math)
    {
      if near == far || aspect == 0.0 {
        return Failure(NullFrustum);
      }
      if near <= 0.0 {
        return Failure(NearNotPositive);
      }
      if far <= 0.0 {
        return Failure(FarNotPositive);
      }

      var half := PI * fov / 180.0 / 2.0;
      assert half == HalfFov(fov);
      var s := math.sin(half);
      if s == 0.0 {
        return Failure(NullFrustum);
      }

      var rd := 1.0 / (far - near);
      var ct := math.cos(half) / s;

      data := new real[] [
        ct / aspect, 0.0, 0.0,                0.0,
        0.0,         ct,  0.0,                0.0,
        0.0,         0.0, -(far + near) * rd, -2.0 * near * far * rd,
        0.0,         0.0, -1.0,               0.0];
      forall k | 0 <= k < 16
        ensures Entries()[k] == Perspective(fov, aspect, near, far, math)[k]
      {
        Slots(k);
      }
      r := Success(this);
    }

    /**
     * this := this * m, computed into a fresh array before it replaces
     * `data`, so `m` may be `this` itself; `m` is not changed otherwise.
     */
    method Multiply(m: Matrix4) returns (r: Matrix4)
      requires Valid() && m.Valid()
      modifies this
      ensures r == this && Valid() && fresh(data)
      ensures Entries() == Product(old(Entries()), old(m.Entries()))
      ensures m != this ==> m.data == old(m.data) && m.Entries() == old(m.Entries())
    {
      ghost var a, b := data[..], m.data[..];
      var res := new real[16];
      for i := 0 to 4
        modifies res
        invariant forall p, q :: 0 <= p < i && 0 <= q < 4 ==> res[p * 4 + q] == Cell(a, b, p, q)
      {
        for j := 0 to 4
          modifies res
          invariant forall p, q :: 0 <= p < i && 0 <= q < 4 ==> res[p * 4 + q] == Cell(a, b, p, q)
          invariant forall q :: 0 <= q < j ==> res[i * 4 + q] == Cell(a, b, i, q)
        {
          res[i * 4 + j] := data[i * 4 + 0] * m.data[j]
            + data[i * 4 + 1] * m.data[4 + j]
            + data[i * 4 + 2] * m.data[8 + j]
            + data[i * 4 + 3] * m.data[12 + j];
        }
      }
      data := res;
      MatrixExt(Entries(), Product(a, b));
      r := this;
    }

    /** The entries laid out for a WebGPU uniform buffer (column-major). */
    method ToWebGPUMatrix() returns (out: seq<real>)
      requires Valid()
      ensures out == Transposed(Entries())
    {
      out := Reverse();
    }

    method Translate(x: real, y: real, z: real) returns (r: Matrix4)
      requires Valid()
      modifies this
      ensures r == this && Valid() && fresh(data)
      ensures Entries() == Product(old(Entries()), Translation(x, y, z))
    {
      var e := new Matrix4();
      var _ := e.SetTranslate(x, y, z);
      r := Multiply(e);
    }

    method Scale(x: real, y: real, z: real) returns (r: Matrix4)
      requires Valid()
      modifies this
      ensures r == this && Valid() && fresh(data)
      ensures Entries() == Product(old(Entries()), Scaling(x, y, z))
    {
      var e := new Matrix4();
      var _ := e.SetScale(x, y, z);
      r := Multiply(e);
    }

    method RotateZ(angle: real, math: MathLib) returns (r: Matrix4)
      requires Valid()
      modifies this
      ensures r == this && Valid() && fresh(data)
      ensures Entries() == Product(old(Entries()), RotationZ(angle, math))
    {
      var e := new Matrix4();
      var _ := e.SetRotateZ(angle, math);
      r := Multiply(e);
    }

    method RotateY(angle: real, math: MathLib) returns (r: Matrix4)
      requires Valid()
      modifies this
      ensures r == this && Valid() && fresh(data)
      ensures Entries() == Product(old(Entries()), RotationY(angle, math))
    {
      var e := new Matrix4();
      var _ := e.SetRotateY(angle, math);
      r := Multiply(e);
    }

    method RotateX(angle: real, math: MathLib) returns (r: Matrix4)
      requires Valid()
      modifies this
      ensures r == this && Valid() && fresh(data)
      ensures Entries() == Product(old(Entries()), RotationX(angle, math))
    {
      var e := new Matrix4();
      var _ := e.SetRotateX(angle, math);
      r := Multiply(e);
    }

    method LookAt(eye: Vec, target: Vec, up: Vec, math: MathLib) returns (r: Matrix4)
      requires Valid()
      requires LookAtDefined(eye, target, up, math)
      modifies this
      ensures r == this && Valid() && fresh(data)
      ensures Entries() == Product(old(Entries()), LookAtView(eye, target, up, math))
    {
      var e := new Matrix4();
      var _ := e.SetLookAt(eye, target, up, math);
      r := Multiply(e);
    }
  }

  /**
   * The model-view matrix of the rotating triangle:
   * new Matrix4().translate(-0.5, 0.5, 0).scale(0.5, 0.5, 1).rotateZ(angle).toWebGPUMatrix()
   * is T * S * R, serialised column-major.
   */
  method TriangleModelView(angle: real, math: MathLib) returns (out: seq<real>)
    ensures out == Transposed(Product(Product(Translation(-0.5, 0.5, 0.0), Scaling(0.5, 0.5, 1.0)),
                                      RotationZ(angle, math)))
  {
    var m := new Matrix4();
    var _ := m.Translate(-0.5, 0.5, 0.0);
    ProductIdentityLeft(Translation(-0.5, 0.5, 0.0));
    var _ := m.Scale(0.5, 0.5, 1.0);
    var _ := m.RotateZ(angle, math);
    out := m.ToWebGPUMatrix();
  }
}
