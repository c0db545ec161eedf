/** Three-component vectors used for positions, velocities and forces.
    Doubles are modelled as exact reals, so every algebraic law below holds
    exactly (the source's rounding is not modelled). */
module Vectors {

  /** A value of the Vec3 struct. */
  datatype Vec3 = Vec3(x: real, y: real, z: real)

  /** One of the three coordinate axes. */
  datatype Axis = X | Y | Z

  /** The coordinate of `v` along axis `a`. */
  function Component(v: Vec3, a: Axis): real
  {
    match a
    case X => v.x
    case Y => v.y
    case Z => v.z
  }

  /** The default-constructed vector: every member initialiser is `{}`, i.e. zero. */
  const Zero: Vec3 := Vec3(0.0, 0.0, 0.0)

  /** `a + b`: a by-value copy of `a` with `b` added in place. */
  function Add(a: Vec3, b: Vec3): Vec3
  {
    Vec3(a.x + b.x, a.y + b.y, a.z + b.z)
  }

  /** `a - b`: a by-value copy of `a` with `b` subtracted in place. */
  function Sub(a: Vec3, b: Vec3): Vec3
  {
    Vec3(a.x - b.x, a.y - b.y, a.z - b.z)
  }

  /** `a * scalar`: a by-value copy of `a` scaled in place. */
  function Scale(a: Vec3, scalar: real): Vec3
  {
    Vec3(a.x * scalar, a.y * scalar, a.z * scalar)
  }

  /** `scalar * a`: the same in-place scaling of a copy, with the operands swapped. */
  function ScaleLeft(scalar: real, a: Vec3): Vec3
  {
    Vec3(a.x * scalar, a.y * scalar, a.z * scalar)
  }

  /** The squared Euclidean length. */
  function Norm2(v: Vec3): real
  {
    v.x * v.x + v.y * v.y + v.z * v.z
  }

  /** The cross product, with its second component written `b.x*a.z - a.x*b.z`
      exactly as the source writes it. */
  function Cross(a: Vec3, b: Vec3): Vec3
  {
    Vec3(a.y * b.z - a.z * b.y,
         b.x * a.z - a.x * b.z,
         a.x * b.y - a.y * b.x)
  }

  /** Dot product; the source has none, it is used only to state orthogonality. */
  function Dot(a: Vec3, b: Vec3): real
  {
    a.x * b.x + a.y * b.y + a.z * b.z
  }

  /** Each value operator acts on every axis independently. */
  lemma ComponentwiseOperators(a: Vec3, b: Vec3, s: real, ax: Axis)
    ensures Component(Add(a, b), ax) == Component(a, ax) + Component(b, ax)
    ensures Component(Sub(a, b), ax) == Component(a, ax) - Component(b, ax)
    ensures Component(Scale(a, s), ax) == Component(a, ax) * s
  {
  }

  /** Subtraction undoes addition and addition undoes subtraction. */
  lemma AddSubInverse(a: Vec3, b: Vec3)
    ensures Sub(Add(a, b), b) == a
    ensures Add(Sub(a, b), b) == a
  {
  }

  /** `s * a` and `a * s` agree. */
  lemma ScaleCommutes(s: real, a: Vec3)
    ensures ScaleLeft(s, a) == Scale(a, s)
  {
  }

  /** The squared length is never negative. */
  lemma Norm2NonNegative(v: Vec3)
    ensures Norm2(v) >= 0.0
  {
    SquareNonNegative(v.x);
    SquareNonNegative(v.y);
    SquareNonNegative(v.z);
  }

  lemma SquareNonNegative(r: real)
    ensures r * r >= 0.0
  {
    if r < 0.0 {
      var m := -r;
      assert r * r == m * m;
    }
  }

  /** Scaling by `s` multiplies the squared length by `s * s`. */
  lemma Norm2Scale(v: Vec3, s: real)
    ensures Norm2(Scale(v, s)) == s * s * Norm2(v)
  {
  }

  /** A vector crossed with itself is zero. */
  lemma CrossSelfZero(a: Vec3)
    ensures Cross(a, a) == Zero
  {
  }

  /** The cross product is anti-commutative. */
  lemma CrossAntiCommutative(a: Vec3, b: Vec3)
    ensures Cross(a, b) == Scale(Cross(b, a), -1.0)
  {
  }

  /** The cross product is orthogonal to both of its operands. */
  lemma CrossOrthogonal(a: Vec3, b: Vec3)
    ensures Dot(Cross(a, b), a) == 0.0
    ensures Dot(Cross(a, b), b) == 0.0
  {
  }

  /** A Vec3 variable: an object whose three fields the compound-assignment
      operators update in place. `Value()` is the vector it holds. */
  class Vec3Var {
    var x: real
    var y: real
    var z: real

    function Value(): Vec3
      reads this
    {
      Vec3(x, y, z)
    }

    /** `Vec3()`: all three components are zero. */
    constructor ()
      ensures Value() == Zero
    {
      x, y, z := 0.0, 0.0, 0.0;
    }

    /** `Vec3(x, y, z)`: the components are stored unchanged. */
    constructor Of(x: real, y: real, z: real)
      ensures this.x == x && this.y == y && this.z == z
    {
      this.x, this.y, this.z := x, y, z;
    }

    /** `*this += other`. `other` is a reference and may be `this` itself;
        the returned reference is `this`. */
    method AddAssign(other: Vec3Var) returns (self: Vec3Var)
      modifies this
      ensures self == this
      ensures Value() == Add(old(Value()), old(other.Value()))
      ensures other != this ==> other.Value() == old(other.Value())
    {
      x := x + other.x;
      y := y + other.y;
      z := z + other.z;
      self := this;
    }

    /** `*this -= other`, with the same aliasing as `AddAssign`. */
    method SubAssign(other: Vec3Var) returns (self: Vec3Var)
      modifies this
      ensures self == this
      ensures Value() == Sub(old(Value()), old(other.Value()))
      ensures other != this ==> other.Value() == old(other.Value())
    {
      x := x - other.x;
      y := y - other.y;
      z := z - other.z;
      self := this;
    }

    /** `*this *= scalar`. */
    method MulAssign(scalar: real) returns (self: Vec3Var)
      modifies this
      ensures self == this
      ensures Value() == Scale(old(Value()), scalar)
    {
      x := x * scalar;
      y := y * scalar;
      z := z * scalar;
      self := this;
    }
  }

  /** `a += b; a -= b;` leaves `a` as it was and `b` untouched, provided `b`
      is a different object (with `a += a; a -= a;` the result is zero). */
  method AddThenSubtract(a: Vec3Var, b: Vec3Var)
    requires a != b
    modifies a
    ensures a.Value() == old(a.Value()) && b.Value() == old(b.Value())
  {
    var _ := a.AddAssign(b);
    var _ := a.SubAssign(b);
    AddSubInverse(old(a.Value()), b.Value());
  }

  /** With aliasing, `a += a; a -= a;` clears `a`. */
  method AddThenSubtractSelf(a: Vec3Var)
    modifies a
    ensures a.Value() == Zero
  {
    var _ := a.AddAssign(a);
    var _ := a.SubAssign(a);
  }
}
