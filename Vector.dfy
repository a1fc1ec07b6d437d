// The 2D vector of src/scripts/model/vector2.ts. The static operations and the
// query methods build new values, so they live on the value type Vec; the
// in-place mutators change the fields of a Vector2 object.

module Vectors {
  import opened MathExt

  datatype Vec = Vec(x: real, y: real) {

    /** Vector2.add (static) */
    static function Add(a: Vec, b: Vec): Vec
    {
      Vec(a.x + b.x, a.y + b.y)
    }

    /** Vector2.subtract (static) */
    static function Subtract(a: Vec, b: Vec): Vec
    {
      Vec(a.x - b.x, a.y - b.y)
    }

    /** Vector2.multiply (static): componentwise */
    static function Multiply(a: Vec, b: Vec): Vec
    {
      Vec(a.x * b.x, a.y * b.y)
    }

    /** Vector2.divide (static): componentwise */
    static function Divide(a: Vec, b: Vec): Vec
      requires b.x != 0.0 && b.y != 0.0
    {
      Vec(a.x / b.x, a.y / b.y)
    }

    /** Vector2.dot */
    function Dot(b: Vec): real
    {
      x * b.x + y * b.y
    }

    /** Vector2.cross: the z component of the 3D cross product */
    function Cross(b: Vec): real
    {
      x * b.y - y * b.x
    }

    /** Vector2.lengthSquared: never negative. */
    function LengthSquared(): (r: real)
      ensures r >= 0.0
    {
      SumOfSquares(x, y);
      x * x + y * y
    }

    /** Vector2.distanceSquared: never negative, and zero between equal vectors. */
    function DistanceSquared(b: Vec): (r: real)
      ensures r >= 0.0
      ensures this == b ==> r == 0.0
    {
      SumOfSquares(x - b.x, y - b.y);
      (x - b.x) * (x - b.x) + (y - b.y) * (y - b.y)
    }

    /** Vector2.distance, through the uninterpreted square root. */
    function Distance(b: Vec): real
    {
      Sqrt(DistanceSquared(b))
    }

    /** Vector2.zero, one, up, down, left, right (screen axes: y grows downwards). */
    static function Zero(): Vec { Vec(0.0, 0.0) }
    static function One(): Vec { Vec(1.0, 1.0) }
    static function Up(): Vec { Vec(0.0, -1.0) }
    static function Down(): Vec { Vec(0.0, 1.0) }
    static function Left(): Vec { Vec(-1.0, 0.0) }
    static function Right(): Vec { Vec(1.0, 0.0) }
  }

  /** A sum of two squares is never negative. */
  lemma SumOfSquares(u: real, v: real)
    ensures u * u + v * v >= 0.0
  {
    if u < 0.0 {
      assert u * u == (-u) * (-u);
    }
    if v < 0.0 {
      assert v * v == (-v) * (-v);
    }
  }

  /** Subtracting b undoes adding b, and adding b undoes subtracting it. */
  lemma SubtractUndoesAdd(a: Vec, b: Vec)
    ensures Vec.Subtract(Vec.Add(a, b), b) == a
    ensures Vec.Add(Vec.Subtract(a, b), b) == a
  {
  }

  /** Dividing by b undoes multiplying by b. */
  lemma DivideUndoesMultiply(a: Vec, b: Vec)
    requires b.x != 0.0 && b.y != 0.0
    ensures Vec.Divide(Vec.Multiply(a, b), b) == a
  {
    assert a.x * b.x / b.x == a.x;
    assert a.y * b.y / b.y == a.y;
  }

  /** dot is symmetric; cross is antisymmetric and vanishes on a vector with itself. */
  lemma DotCrossSymmetry(a: Vec, b: Vec)
    ensures a.Dot(b) == b.Dot(a)
    ensures a.Cross(b) == -b.Cross(a)
    ensures a.Cross(a) == 0.0
  {
  }

  /** The squared length is the dot product with itself and the squared distance to zero. */
  lemma LengthSquaredIsDot(a: Vec)
    ensures a.LengthSquared() == a.Dot(a)
    ensures a.LengthSquared() == a.DistanceSquared(Vec.Zero())
  {
  }

  /** The squared distance is the squared length of the difference, and symmetric. */
  lemma DistanceSquaredIsLengthOfDifference(a: Vec, b: Vec)
    ensures a.DistanceSquared(b) == Vec.Subtract(a, b).LengthSquared()
    ensures a.DistanceSquared(b) == b.DistanceSquared(a)
  {
  }

  /**
   * The constant vectors: zero is the additive identity, one is the
   * multiplicative identity, up/down and left/right are opposite unit vectors,
   * the vertical and horizontal ones are orthogonal, and one = right + down.
   */
  lemma ConstantVectors(a: Vec)
    ensures Vec.Add(a, Vec.Zero()) == a && Vec.Multiply(a, Vec.One()) == a
    ensures Vec.Add(Vec.Up(), Vec.Down()) == Vec.Zero()
    ensures Vec.Add(Vec.Left(), Vec.Right()) == Vec.Zero()
    ensures Vec.Up().LengthSquared() == 1.0 && Vec.Down().LengthSquared() == 1.0
    ensures Vec.Left().LengthSquared() == 1.0 && Vec.Right().LengthSquared() == 1.0
    ensures Vec.Up().Dot(Vec.Right()) == 0.0
    ensures Vec.Add(Vec.Right(), Vec.Down()) == Vec.One()
  {
  }

  /** A Vector2 object: the mutable form used for the player position and the marching ray. */
  class Vector2 {
    var x: real
    var y: real

    /** The value the object currently holds. */
    function Value(): Vec
      reads this
    {
      Vec(x, y)
    }

    constructor (x: real, y: real)
      ensures Value() == Vec(x, y)
    {
      this.x := x;
      this.y := y;
    }

    /** In-place add: afterwards this holds what the static add would return. */
    method Add(b: Vector2)
      modifies this
      ensures Value() == Vec.Add(old(Value()), old(b.Value()))
    {
      x := x + b.x;
      y := y + b.y;
    }

    /** In-place subtract, agreeing with the static subtract. */
    method Subtract(b: Vector2)
      modifies this
      ensures Value() == Vec.Subtract(old(Value()), old(b.Value()))
    {
      x := x - b.x;
      y := y - b.y;
    }

    /** In-place multiply, agreeing with the static multiply. */
    method Multiply(b: Vector2)
      modifies this
      ensures Value() == Vec.Multiply(old(Value()), old(b.Value()))
    {
      x := x * b.x;
      y := y * b.y;
    }

    /** In-place divide, agreeing with the static divide. */
    method Divide(b: Vector2)
      requires b.x != 0.0 && b.y != 0.0
      modifies this
      ensures Value() == Vec.Divide(old(Value()), old(b.Value()))
    {
      x := x / b.x;
      y := y / b.y;
    }

    /** Vector2.equals: equality of coordinates, not identity. */
    function Equals(b: Vector2): (r: bool)
      reads this, b
      ensures r <==> Value() == b.Value()
    {
      x == b.x && y == b.y
    }

    /** Vector2.clone: a distinct object holding an equal value. */
    method Clone() returns (c: Vector2)
      ensures fresh(c) && c.Equals(this)
    {
      c := new Vector2(x, y);
    }
  }

  /**
   * Mutating a clone leaves the original untouched: the clone is a new
   * object, so the in-place add changes only the clone.
   */
  method AddToClone(v: Vector2, d: Vector2) returns (c: Vector2)
    ensures fresh(c) && v.Value() == old(v.Value())
    ensures c.Value() == Vec.Add(v.Value(), d.Value())
  {
    c := v.Clone();
    c.Add(d);
  }
}
