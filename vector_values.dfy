/**
 * The value side of the eng-math vector library: a vector is three real
 * components together with the class it was built as (`Vector3D` or
 * `Vector2D`). Every operation of src/vector.ts that builds and returns a
 * new value is a function here, and every in-place operation has a function
 * here that gives the vector's new components; the class in module Vectors
 * is proved against these.
 *
 * Components are `real`: IEEE-754 rounding of the source's `number` is not
 * modelled.
 */
module VectorValues {

  /** Which class a vector is an instance of. */
  datatype Kind = Dim2 | Dim3

  /** The components of a vector, tagged with its class. */
  datatype Vec = Vec(kind: Kind, x: real, y: real, z: real) {
    /** The class invariant of `Vector2D`: its z component is exactly 0. */
    predicate Valid() {
      kind == Dim2 ==> z == 0.0
    }
  }

  /**
   * The shapes `set`, `add` and `subtract` dispatch on at run time: three
   * numbers (the `Vector3D` overload), two numbers (the `Vector2D`
   * overload), or a vector object, which the class layer passes as a
   * `Vector` and this module as its `Vec` value.
   */
  datatype Operand<V> = Nums3(a: real, b: real, c: real) | Nums2(a: real, b: real) | Of(v: V)

  /**
   * What a call of `set`/`add`/`subtract` produces: a value (the new
   * components, or `()` for the call on an object), or the string the source
   * throws.
   */
  datatype Result<T> = Ok(value: T) | Err(message: string)

  const SetRejected: string := "Cannot set an instance of Vector3D to a Vector2D"
  /** Thrown by `Vector2D.add`, and, with the same words, by `Vector2D.subtract`. */
  const AddRejected: string := "Cannot add an instance of Vector3D to a Vector2D"

  /**
   * The calls TypeScript lets a caller write: a `Vector3D` takes a vector or
   * three numbers, but not two. A `Vector2D` takes a vector or two numbers
   * through its own type, and three numbers through a `Vector3D`-typed
   * reference, where its override ignores the third.
   */
  predicate Accepts<V>(k: Kind, op: Operand<V>) {
    k == Dim3 ==> !op.Nums2?
  }

  /** The operand a `Vector2D` throws on: a vector that is not itself a `Vector2D`. */
  predicate Rejected(k: Kind, op: Operand<Vec>) {
    k == Dim2 && op.Of? && op.v.kind == Dim3
  }

  /** A vector operand keeps its own class invariant. */
  predicate OperandValid(op: Operand<Vec>) {
    op.Of? ==> op.v.Valid()
  }

  // ---------------------------------------------------------------------
  // In-place operations, as functions from the old components to the new
  // ---------------------------------------------------------------------

  /** `toArray`: three entries for a `Vector3D`, two for a `Vector2D`. */
  function Components(u: Vec): (r: seq<real>)
    ensures |r| == if u.kind == Dim2 then 2 else 3
  {
    match u.kind
    case Dim3 => [u.x, u.y, u.z]
    case Dim2 => [u.x, u.y]
  }

  /** `Array.prototype.map` over a sequence of components. */
  function MapSeq(s: seq<real>, f: real -> real): (r: seq<real>)
    ensures |r| == |s|
    ensures forall i :: 0 <= i < |s| ==> r[i] == f(s[i])
  {
    seq(|s|, i requires 0 <= i < |s| => f(s[i]))
  }

  /** `map(f)`: every component except the z of a `Vector2D` is replaced by its image under `f`. */
  function Mapped(u: Vec, f: real -> real): (r: Vec)
    ensures r.kind == u.kind
    ensures u.Valid() ==> r.Valid()
    ensures Components(r) == MapSeq(Components(u), f)
    ensures u.kind == Dim2 ==> r.z == u.z
  {
    Vec(u.kind, f(u.x), f(u.y), if u.kind == Dim2 then u.z else f(u.z))
  }

  /** `scale(s)`: `map` with multiplication by `s`. */
  function Scaled(u: Vec, s: real): (r: Vec)
    ensures r.kind == u.kind && r.x == u.x * s && r.y == u.y * s
    ensures r.z == if u.kind == Dim2 then u.z else u.z * s
    ensures u.Valid() ==> r.Valid()
  {
    Mapped(u, c => c * s)
  }

  /** `set`: overwrite the components with the operand's, or throw. */
  function Assigned(u: Vec, op: Operand<Vec>): (r: Result<Vec>)
    requires Accepts(u.kind, op)
    ensures r.Err? <==> Rejected(u.kind, op)
    ensures r.Err? ==> r.message == SetRejected
    ensures r.Ok? ==> r.value.kind == u.kind
    ensures r.Ok? && u.kind == Dim2 ==> r.value.z == u.z
    ensures r.Ok? && u.Valid() && OperandValid(op) ==> r.value.Valid()
  {
    match u.kind
    case Dim3 =>
      if op.Of? then Ok(Vec(Dim3, op.v.x, op.v.y, op.v.z))
      else Ok(Vec(Dim3, op.a, op.b, op.c))
    case Dim2 =>
      if op.Of? then
        if op.v.kind == Dim2 then Ok(u.(x := op.v.x, y := op.v.y)) else Err(SetRejected)
      else Ok(u.(x := op.a, y := op.b))
  }

  /** `add`: increment each written component by the operand's, or throw. */
  function Incremented(u: Vec, op: Operand<Vec>): (r: Result<Vec>)
    requires Accepts(u.kind, op)
    ensures r.Err? <==> Rejected(u.kind, op)
    ensures r.Err? ==> r.message == AddRejected
    ensures r.Ok? ==> r.value.kind == u.kind
    ensures r.Ok? && u.kind == Dim2 ==> r.value.z == u.z
    ensures r.Ok? && u.Valid() ==> r.value.Valid()
  {
    match u.kind
    case Dim3 =>
      if op.Of? then Ok(Vec(Dim3, u.x + op.v.x, u.y + op.v.y, u.z + op.v.z))
      else Ok(Vec(Dim3, u.x + op.a, u.y + op.b, u.z + op.c))
    case Dim2 =>
      if op.Of? then
        if op.v.kind == Dim2 then Ok(u.(x := u.x + op.v.x, y := u.y + op.v.y)) else Err(AddRejected)
      else Ok(u.(x := u.x + op.a, y := u.y + op.b))
  }

  /** `subtract`: decrement each written component by the operand's, or throw. */
  function Decremented(u: Vec, op: Operand<Vec>): (r: Result<Vec>)
    requires Accepts(u.kind, op)
    ensures r.Err? <==> Rejected(u.kind, op)
    ensures r.Err? ==> r.message == AddRejected
    ensures r.Ok? ==> r.value.kind == u.kind
    ensures r.Ok? && u.kind == Dim2 ==> r.value.z == u.z
    ensures r.Ok? && u.Valid() ==> r.value.Valid()
  {
    match u.kind
    case Dim3 =>
      if op.Of? then Ok(Vec(Dim3, u.x - op.v.x, u.y - op.v.y, u.z - op.v.z))
      else Ok(Vec(Dim3, u.x - op.a, u.y - op.b, u.z - op.c))
    case Dim2 =>
      if op.Of? then
        if op.v.kind == Dim2 then Ok(u.(x := u.x - op.v.x, y := u.y - op.v.y)) else Err(AddRejected)
      else Ok(u.(x := u.x - op.a, y := u.y - op.b))
  }

  // ---------------------------------------------------------------------
  // Value-returning operations
  // ---------------------------------------------------------------------

  /** `dot`: when either operand is a valid `Vector2D`, z contributes nothing. */
  function Dot(u: Vec, w: Vec): (r: real)
    ensures (u.kind == Dim2 && u.Valid()) || (w.kind == Dim2 && w.Valid()) ==>
      r == u.x * w.x + u.y * w.y
  {
    u.x * w.x + u.y * w.y + u.z * w.z
  }

  /** `magSq`. */
  function MagSq(u: Vec): (r: real)
    ensures r >= 0.0
    ensures r == Dot(u, u)
  {
    u.x * u.x + u.y * u.y + u.z * u.z
  }

  /** `cross`: always a `Vector3D`, perpendicular to both operands. */
  function Cross(u: Vec, w: Vec): (r: Vec)
    ensures r.kind == Dim3
    ensures Dot(r, u) == 0.0 && Dot(r, w) == 0.0
  {
    Vec(Dim3, u.y * w.z - w.y * u.z, u.z * w.x - w.z * u.x, u.x * w.y - w.x * u.y)
  }

  /** `copy`: a vector of the same class with the same components. */
  function Copy(u: Vec): (r: Vec)
    ensures Components(r) == Components(u) && r.kind == u.kind
    ensures r.Valid()
    ensures u.Valid() ==> r == u
  {
    match u.kind
    case Dim3 => Vec(Dim3, u.x, u.y, u.z)
    case Dim2 => Vec(Dim2, u.x, u.y, 0.0)
  }

  /** Static `Vector3D.add`: a new `Vector3D`; either argument may be a `Vector2D`. */
  function Sum3D(u: Vec, w: Vec): (r: Vec)
    ensures r.kind == Dim3
    ensures Difference3D(r, w) == Vec(Dim3, u.x, u.y, u.z)
  {
    Vec(Dim3, u.x + w.x, u.y + w.y, u.z + w.z)
  }

  /** Static `Vector3D.subtract`. */
  function Difference3D(u: Vec, w: Vec): (r: Vec)
    ensures r.kind == Dim3
  {
    Vec(Dim3, u.x - w.x, u.y - w.y, u.z - w.z)
  }

  /** Static `Vector3D.zeroVector`. */
  function Zero3D(): (r: Vec)
    ensures r.kind == Dim3 && Components(r) == [0.0, 0.0, 0.0]
  {
    Vec(Dim3, 0.0, 0.0, 0.0)
  }

  /** Static `Vector3D.fromArray`: entries past the third are ignored. */
  function FromArray3D(arr: seq<real>): (r: Vec)
    requires |arr| >= 3
    ensures r.kind == Dim3 && Components(r) == arr[..3]
  {
    Vec(Dim3, arr[0], arr[1], arr[2])
  }

  /** Static `Vector3D.from2Dto3D`: the same components as a `Vector3D`. */
  function From2Dto3D(w: Vec): (r: Vec)
    requires w.kind == Dim2
    ensures r.kind == Dim3 && r.x == w.x && r.y == w.y && r.z == w.z
    ensures w.Valid() ==> r.z == 0.0 && MagSq(r) == MagSq(w)
  {
    Vec(Dim3, w.x, w.y, w.z)
  }

  /** Static `Vector2D.add`: both arguments are `Vector2D`s, the result is one. */
  function Sum2D(u: Vec, w: Vec): (r: Vec)
    requires u.kind == Dim2 && w.kind == Dim2
    ensures r.kind == Dim2 && r.Valid()
    ensures Difference2D(r, w) == Vec(Dim2, u.x, u.y, 0.0)
  {
    Vec(Dim2, u.x + w.x, u.y + w.y, 0.0)
  }

  /** Static `Vector2D.subtract`. */
  function Difference2D(u: Vec, w: Vec): (r: Vec)
    requires u.kind == Dim2 && w.kind == Dim2
    ensures r.kind == Dim2 && r.Valid()
  {
    Vec(Dim2, u.x - w.x, u.y - w.y, 0.0)
  }

  /** Static `Vector2D.zeroVector`. */
  function Zero2D(): (r: Vec)
    ensures r.kind == Dim2 && r.Valid() && Components(r) == [0.0, 0.0]
  {
    Vec(Dim2, 0.0, 0.0, 0.0)
  }

  /** Static `Vector2D.fromArray`: entries past the second are ignored. */
  function FromArray2D(arr: seq<real>): (r: Vec)
    requires |arr| >= 2
    ensures r.kind == Dim2 && r.Valid() && Components(r) == arr[..2]
  {
    Vec(Dim2, arr[0], arr[1], 0.0)
  }

  // ---------------------------------------------------------------------
  // Properties
  // ---------------------------------------------------------------------

  /** `fromArray(toArray(v))` gives back `v`, for both classes. */
  lemma ArrayRoundTrip(u: Vec)
    requires u.Valid()
    ensures u.kind == Dim3 ==> FromArray3D(Components(u)) == u
    ensures u.kind == Dim2 ==> FromArray2D(Components(u)) == u
  {
  }

  /**
   * A `Vector3D` given a `Vector2D` operand: `set` makes z 0, `add` and
   * `subtract` leave z as it was, and x and y follow the operand.
   */
  lemma PlanarOperandOn3D(u: Vec, w: Vec)
    requires u.kind == Dim3 && w.kind == Dim2 && w.Valid()
    ensures Assigned(u, Of(w)) == Ok(Vec(Dim3, w.x, w.y, 0.0))
    ensures Incremented(u, Of(w)) == Ok(Vec(Dim3, u.x + w.x, u.y + w.y, u.z))
    ensures Decremented(u, Of(w)) == Ok(Vec(Dim3, u.x - w.x, u.y - w.y, u.z))
  {
  }

  /**
   * A `Vector2D` given numbers or a `Vector2D` changes only x and y (a third
   * number is ignored); given a `Vector3D` all three operations throw.
   */
  lemma PlanarReceiver(u: Vec, op: Operand<Vec>)
    requires u.kind == Dim2 && u.Valid() && Accepts(u.kind, op)
    ensures op.Of? && op.v.kind == Dim3 ==>
      Assigned(u, op) == Err(SetRejected) && Incremented(u, op) == Err(AddRejected)
      && Decremented(u, op) == Err(AddRejected)
    ensures !op.Of? ==>
      Assigned(u, op) == Ok(Vec(Dim2, op.a, op.b, 0.0))
      && Incremented(u, op) == Ok(Vec(Dim2, u.x + op.a, u.y + op.b, 0.0))
      && Decremented(u, op) == Ok(Vec(Dim2, u.x - op.a, u.y - op.b, 0.0))
    ensures op.Of? && op.v.kind == Dim2 ==>
      Assigned(u, op) == Ok(Vec(Dim2, op.v.x, op.v.y, 0.0))
      && Incremented(u, op) == Ok(Vec(Dim2, u.x + op.v.x, u.y + op.v.y, 0.0))
      && Decremented(u, op) == Ok(Vec(Dim2, u.x - op.v.x, u.y - op.v.y, 0.0))
  {
  }

  /**
   * `set` on a receiver takes what the operand offers its class: a vector of
   * the same class gives all of its `toArray`, and three numbers given to a
   * `Vector3D` become its components. `add` and `subtract` of three numbers
   * on a `Vector3D` are the static `add` and `subtract` of that vector.
   */
  lemma SetTakesOperand(u: Vec, w: Vec, a: real, b: real, c: real)
    requires u.kind == w.kind
    ensures Assigned(u, Of(w)).Ok? && Components(Assigned(u, Of(w)).value) == Components(w)
    ensures u.Valid() && w.Valid() ==> Assigned(u, Of(w)) == Ok(w)
    ensures u.kind == Dim3 ==>
      Assigned(u, Nums3(a, b, c)) == Ok(Vec(Dim3, a, b, c))
      && Incremented(u, Nums3(a, b, c)) == Ok(Sum3D(u, Vec(Dim3, a, b, c)))
      && Decremented(u, Nums3(a, b, c)) == Ok(Difference3D(u, Vec(Dim3, a, b, c)))
  {
  }

  /** `add` then `subtract` of the same operand value restores the vector; a rejected operand is rejected by both. */
  lemma AddThenSubtract(u: Vec, op: Operand<Vec>)
    requires Accepts(u.kind, op)
    ensures Incremented(u, op).Ok? ==> Decremented(Incremented(u, op).value, op) == Ok(u)
    ensures Incremented(u, op).Err? <==> Decremented(u, op).Err?
  {
  }

  /** `set` twice with the same operand is the same as once. */
  lemma AssignIdempotent(u: Vec, op: Operand<Vec>)
    requires Accepts(u.kind, op)
    ensures Assigned(u, op).Ok? ==> Assigned(Assigned(u, op).value, op) == Assigned(u, op)
  {
  }

  /** The in-place `add`/`subtract` with a vector operand agree with the static `add`/`subtract` of the receiver's class. */
  lemma InPlaceAgreesWithStatic(u: Vec, w: Vec)
    requires u.Valid() && w.Valid()
    ensures u.kind == Dim3 ==>
      Incremented(u, Of(w)) == Ok(Sum3D(u, w)) && Decremented(u, Of(w)) == Ok(Difference3D(u, w))
    ensures u.kind == Dim2 && w.kind == Dim2 ==>
      Incremented(u, Of(w)) == Ok(Sum2D(u, w)) && Decremented(u, Of(w)) == Ok(Difference2D(u, w))
  {
  }

  /** Static `subtract` undoes static `add`, and static `add` undoes static `subtract`, in both classes. */
  lemma StaticInverses(u: Vec, w: Vec)
    ensures Difference3D(Sum3D(u, w), w) == Vec(Dim3, u.x, u.y, u.z)
    ensures Sum3D(Difference3D(u, w), w) == Vec(Dim3, u.x, u.y, u.z)
    ensures u.kind == Dim2 && w.kind == Dim2 && u.Valid() ==>
      Difference2D(Sum2D(u, w), w) == u && Sum2D(Difference2D(u, w), w) == u
  {
  }

  /** The zero vectors are identities of the static `add`. */
  lemma ZeroIsIdentity(u: Vec)
    requires u.Valid()
    ensures u.kind == Dim3 ==> Sum3D(u, Zero3D()) == u && Sum3D(Zero3D(), u) == u
    ensures u.kind == Dim2 ==> Sum2D(u, Zero2D()) == u && Sum2D(Zero2D(), u) == u
  {
  }

  /** `scale(s)` then `scale(t)` is `scale(s * t)`. */
  lemma ScaleComposes(u: Vec, s: real, t: real)
    ensures Scaled(Scaled(u, s), t) == Scaled(u, s * t)
  {
  }

  /** Scaling a vector by `s` multiplies its `magSq` by `s * s`. */
  lemma ScaleMagSq(u: Vec, s: real)
    requires u.Valid()
    ensures MagSq(Scaled(u, s)) == s * s * MagSq(u)
  {
  }

  /** `dot` is symmetric. */
  lemma DotSymmetric(u: Vec, w: Vec)
    ensures Dot(u, w) == Dot(w, u)
  {
  }

  /** `cross` is anti-commutative and a vector crossed with itself is zero. */
  lemma CrossAntiCommutative(u: Vec, w: Vec)
    ensures Cross(u, w) == Scaled(Cross(w, u), -1.0)
    ensures Cross(u, u) == Zero3D()
  {
  }

  /** The examples of tests/vector.test.ts for `magSq`, `dot` and `cross`. */
  lemma ProductExamples()
    ensures MagSq(Vec(Dim3, 3.0, 4.0, 12.0)) == 169.0
    ensures Dot(Vec(Dim3, 1.0, 2.0, 3.0), Vec(Dim3, 4.0, 3.0, 2.0)) == 16.0
    ensures Dot(Vec(Dim3, 1.0, 2.0, 3.0), Vec(Dim2, 4.0, 3.0, 0.0)) == 10.0
    ensures Cross(Vec(Dim3, 1.0, 0.0, 0.0), Vec(Dim3, 0.0, 1.0, 0.0)) == Vec(Dim3, 0.0, 0.0, 1.0)
    ensures Cross(Vec(Dim3, 1.0, 0.0, 0.0), Vec(Dim2, 0.0, 1.0, 0.0)) == Vec(Dim3, 0.0, 0.0, 1.0)
  {
  }

  /** The examples of tests/vector.test.ts for `map` and `scale`. */
  lemma MapExamples()
    ensures Mapped(Vec(Dim3, 2.0, 3.0, 4.0), n => n * n) == Vec(Dim3, 4.0, 9.0, 16.0)
    ensures Mapped(Vec(Dim2, 2.0, 3.0, 0.0), n => n * n + 1.0) == Vec(Dim2, 5.0, 10.0, 0.0)
    ensures Scaled(Vec(Dim3, 2.0, 3.0, 4.0), 5.0) == Vec(Dim3, 10.0, 15.0, 20.0)
  {
  }

  // ---------------------------------------------------------------------
  // Any sequence of in-place calls
  // ---------------------------------------------------------------------

  /** One call of an in-place operation. */
  datatype Mutation =
    | MapBy(f: real -> real)
    | SetTo(op: Operand<Vec>)
    | AddBy(op: Operand<Vec>)
    | SubtractBy(op: Operand<Vec>)
    | ScaleBy(s: real)

  /** The call is one TypeScript lets a caller write on a receiver of this class. */
  predicate Callable(k: Kind, m: Mutation) {
    match m
    case SetTo(op) => Accepts(k, op)
    case AddBy(op) => Accepts(k, op)
    case SubtractBy(op) => Accepts(k, op)
    case _ => true
  }

  /** The vector after one call; a call that throws leaves it as it was. */
  function Apply(u: Vec, m: Mutation): (r: Vec)
    requires Callable(u.kind, m)
    ensures r.kind == u.kind
    ensures u.kind == Dim2 ==> r.z == u.z
    ensures m.SetTo? && Assigned(u, m.op).Err? ==> r == u
    ensures m.AddBy? && Incremented(u, m.op).Err? ==> r == u
    ensures m.SubtractBy? && Decremented(u, m.op).Err? ==> r == u
  {
    match m
    case MapBy(f) => Mapped(u, f)
    case SetTo(op) => var res := Assigned(u, op); if res.Ok? then res.value else u
    case AddBy(op) => var res := Incremented(u, op); if res.Ok? then res.value else u
    case SubtractBy(op) => var res := Decremented(u, op); if res.Ok? then res.value else u
    case ScaleBy(s) => Scaled(u, s)
  }

  /** The vector after a sequence of calls, each thrown error caught by the caller. */
  function Run(u: Vec, ms: seq<Mutation>): (r: Vec)
    requires forall i :: 0 <= i < |ms| ==> Callable(u.kind, ms[i])
    decreases |ms|
  {
    if ms == [] then u
    else
      var u' := Apply(u, ms[0]);
      Run(u', ms[1..])
  }

  /**
   * The class invariant survives every sequence of calls: a vector keeps
   * its class, and a `Vector2D` keeps z == 0 whatever it is given.
   */
  lemma {:induction false} RunKeepsClassAndPlane(u: Vec, ms: seq<Mutation>)
    requires forall i :: 0 <= i < |ms| ==> Callable(u.kind, ms[i])
    ensures Run(u, ms).kind == u.kind
    ensures u.kind == Dim2 ==> Run(u, ms).z == u.z
    ensures u.Valid() ==> Run(u, ms).Valid()
    decreases |ms|
  {
    if ms != [] {
      var u' := Apply(u, ms[0]);
      assert forall i :: 0 <= i < |ms[1..]| ==> Callable(u'.kind, ms[1..][i]) by {
        forall i | 0 <= i < |ms[1..]| ensures Callable(u'.kind, ms[1..][i]) {
          assert ms[1..][i] == ms[i + 1];
        }
      }
      RunKeepsClassAndPlane(u', ms[1..]);
    }
  }
}
