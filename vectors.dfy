/**
 * The object side of src/vector.ts: one class `Vector` stands for both
 * `Vector3D` and its subclass `Vector2D`; the constant `kind` records which
 * class an instance was constructed as, and so which override runs. The
 * in-place operations change the fields x, y and z; the value-returning ones
 * allocate a new object. Each method is specified by the function of module
 * VectorValues that gives its result.
 */
module Vectors {
  import opened VectorValues

  /** The values an operand holds when a call starts. */
  function Snapshot(op: Operand<Vector>): Operand<Vec>
    reads if op.Of? then {op.v} else {}
  {
    match op
    case Nums3(a, b, c) => Nums3(a, b, c)
    case Nums2(a, b) => Nums2(a, b)
    case Of(v) => Of(v.Value())
  }

  class Vector {
    /** `Dim2` for an instance of `Vector2D`, `Dim3` for a plain `Vector3D`. */
    const kind: Kind
    var x: real
    var y: real
    var z: real

    /** The components as a value. */
    function Value(): Vec
      reads this
    {
      Vec(kind, x, y, z)
    }

    /** The class invariant: a `Vector2D` has z == 0. */
    ghost predicate Valid()
      reads this
    {
      Value().Valid()
    }

    /** `new Vector3D(x, y, z)`. */
    constructor Make3D(x: real, y: real, z: real)
      ensures Valid() && Value() == Vec(Dim3, x, y, z)
    {
      kind := Dim3;
      this.x, this.y, this.z := x, y, z;
    }

    /** `new Vector2D(x, y)`: the 3D constructor with z fixed at 0. */
    constructor Make2D(x: real, y: real)
      ensures Valid() && Value() == Vec(Dim2, x, y, 0.0)
    {
      kind := Dim2;
      this.x, this.y, this.z := x, y, 0.0;
    }

    /**
     * `map(f)`: the components come from `toArray().map(f)`; z is written
     * only when this is not a `Vector2D`, whose array has no third entry.
     */
    method Map(f: real -> real)
      requires Valid()
      modifies this
      ensures Valid() && Value() == Mapped(old(Value()), f)
    {
      var vals := MapSeq(Components(Value()), f);
      x := vals[0];
      y := vals[1];
      if kind != Dim2 {
        z := vals[2];
      }
    }

    /** `scale(s)`: `map` with multiplication by `s`. */
    method Scale(s: real)
      requires Valid()
      modifies this
      ensures Valid() && Value() == Scaled(old(Value()), s)
    {
      Map(c => c * s);
    }

    /**
     * `set`: `Vector3D.set` copies all three components of any vector or
     * takes three numbers; the `Vector2D` override copies x and y of a
     * `Vector2D` or of the first two numbers it is given, and throws on any
     * other vector.
     */
    method Set(op: Operand<Vector>) returns (out: Result<()>)
      requires Valid() && Accepts(kind, op)
      modifies this
      ensures Valid()
      ensures var r := Assigned(old(Value()), old(Snapshot(op)));
        if r.Ok? then out == Ok(()) && Value() == r.value
        else out == Err(r.message) && Value() == old(Value())
    {
      match kind
      case Dim3 =>
        if op.Of? {
          x := op.v.x;
          y := op.v.y;
          z := op.v.z;
        } else {
          x := op.a;
          y := op.b;
          z := op.c;
        }
        out := Ok(());
      case Dim2 =>
        if op.Of? && op.v.kind == Dim2 {
          x := op.v.x;
          y := op.v.y;
          out := Ok(());
        } else if op.Of? {
          out := Err(SetRejected);
        } else {
          x := op.a;
          y := op.b;
          out := Ok(());
        }
    }

    /** `add`: the same dispatch as `set`, incrementing instead of overwriting. */
    method Add(op: Operand<Vector>) returns (out: Result<()>)
      requires Valid() && Accepts(kind, op)
      modifies this
      ensures Valid()
      ensures var r := Incremented(old(Value()), old(Snapshot(op)));
        if r.Ok? then out == Ok(()) && Value() == r.value
        else out == Err(r.message) && Value() == old(Value())
    {
      match kind
      case Dim3 =>
        if op.Of? {
          x := x + op.v.x;
          y := y + op.v.y;
          z := z + op.v.z;
        } else {
          x := x + op.a;
          y := y + op.b;
          z := z + op.c;
        }
        out := Ok(());
      case Dim2 =>
        if op.Of? && op.v.kind == Dim2 {
          x := x + op.v.x;
          y := y + op.v.y;
          out := Ok(());
        } else if op.Of? {
          out := Err(AddRejected);
        } else {
          x := x + op.a;
          y := y + op.b;
          out := Ok(());
        }
    }

    /** `subtract`: the same dispatch as `set`, decrementing instead of overwriting. */
    method Subtract(op: Operand<Vector>) returns (out: Result<()>)
      requires Valid() && Accepts(kind, op)
      modifies this
      ensures Valid()
      ensures var r := Decremented(old(Value()), old(Snapshot(op)));
        if r.Ok? then out == Ok(()) && Value() == r.value
        else out == Err(r.message) && Value() == old(Value())
    {
      match kind
      case Dim3 =>
        if op.Of? {
          x := x - op.v.x;
          y := y - op.v.y;
          z := z - op.v.z;
        } else {
          x := x - op.a;
          y := y - op.b;
          z := z - op.c;
        }
        out := Ok(());
      case Dim2 =>
        if op.Of? && op.v.kind == Dim2 {
          x := x - op.v.x;
          y := y - op.v.y;
          out := Ok(());
        } else if op.Of? {
          out := Err(AddRejected);
        } else {
          x := x - op.a;
          y := y - op.b;
          out := Ok(());
        }
    }

    /** `copy`: a new object of the same class with the same components. */
    method Copy() returns (r: Vector)
      ensures fresh(r) && r.Valid() && r.Value() == VectorValues.Copy(Value())
    {
      if kind == Dim2 {
        r := new Vector.Make2D(x, y);
      } else {
        r := new Vector.Make3D(x, y, z);
      }
    }

    /** `cross`: a new `Vector3D`; neither operand is changed. */
    method Cross(w: Vector) returns (r: Vector)
      ensures fresh(r) && r.Value() == VectorValues.Cross(Value(), w.Value())
    {
      var cx := (y * w.z) - (w.y * z);
      var cy := (z * w.x) - (w.z * x);
      var cz := (x * w.y) - (w.x * y);
      r := new Vector.Make3D(cx, cy, cz);
    }

    /** Static `Vector3D.add`. */
    static method Add3D(v1: Vector, v2: Vector) returns (r: Vector)
      ensures fresh(r) && r.Value() == Sum3D(v1.Value(), v2.Value())
    {
      r := new Vector.Make3D(v1.x + v2.x, v1.y + v2.y, v1.z + v2.z);
    }

    /** Static `Vector3D.subtract`. */
    static method Subtract3D(v1: Vector, v2: Vector) returns (r: Vector)
      ensures fresh(r) && r.Value() == Difference3D(v1.Value(), v2.Value())
    {
      r := new Vector.Make3D(v1.x - v2.x, v1.y - v2.y, v1.z - v2.z);
    }

    /** Static `Vector3D.zeroVector`. */
    static method ZeroVector3D() returns (r: Vector)
      ensures fresh(r) && r.Value() == Zero3D()
    {
      r := new Vector.Make3D(0.0, 0.0, 0.0);
    }

    /** Static `Vector3D.fromArray`. */
    static method FromArray3D(arr: seq<real>) returns (r: Vector)
      requires |arr| >= 3
      ensures fresh(r) && r.Value() == VectorValues.FromArray3D(arr)
    {
      r := new Vector.Make3D(arr[0], arr[1], arr[2]);
    }

    /** Static `Vector3D.from2Dto3D`. */
    static method From2Dto3D(v: Vector) returns (r: Vector)
      requires v.kind == Dim2
      ensures fresh(r) && r.Value() == VectorValues.From2Dto3D(v.Value())
    {
      r := new Vector.Make3D(v.x, v.y, v.z);
    }

    /** Static `Vector2D.add`. */
    static method Add2D(v1: Vector, v2: Vector) returns (r: Vector)
      requires v1.kind == Dim2 && v2.kind == Dim2
      ensures fresh(r) && r.Valid() && r.Value() == Sum2D(v1.Value(), v2.Value())
    {
      r := new Vector.Make2D(v1.x + v2.x, v1.y + v2.y);
    }

    /** Static `Vector2D.subtract`. */
    static method Subtract2D(v1: Vector, v2: Vector) returns (r: Vector)
      requires v1.kind == Dim2 && v2.kind == Dim2
      ensures fresh(r) && r.Valid() && r.Value() == Difference2D(v1.Value(), v2.Value())
    {
      r := new Vector.Make2D(v1.x - v2.x, v1.y - v2.y);
    }

    /** Static `Vector2D.zeroVector`. */
    static method ZeroVector2D() returns (r: Vector)
      ensures fresh(r) && r.Valid() && r.Value() == Zero2D()
    {
      r := new Vector.Make2D(0.0, 0.0);
    }

    /** Static `Vector2D.fromArray`. */
    static method FromArray2D(arr: seq<real>) returns (r: Vector)
      requires |arr| >= 2
      ensures fresh(r) && r.Valid() && r.Value() == VectorValues.FromArray2D(arr)
    {
      r := new Vector.Make2D(arr[0], arr[1]);
    }
  }
}
