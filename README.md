# eng-math vectors in Dafny

This project models the vector value types of the eng-math library (`src/vector.ts`):
`Vector3D` has three mutable components x, y and z. `Vector2D` extends it and keeps z at 0.

The model has two modules:

- `VectorValues` (vector_values.dfy) holds the algebra on values. A `Vec` is the three
  components plus the class the vector was built as (`Dim3` for `Vector3D`, `Dim2` for
  `Vector2D`). `Vec.Valid()` is the `Vector2D` invariant `z == 0`.
  - Every value-returning operation is a function: `magSq`, `dot`, `cross`, `toArray`, `copy`,
    and the static `add`, `subtract`, `zeroVector`, `fromArray` and `from2Dto3D`.
  - Every in-place operation has a function giving the vector's new components:
    `Mapped`, `Scaled`, `Assigned`, `Incremented` and `Decremented`.
  - The run-time overload dispatch of `set`/`add`/`subtract` is the datatype `Operand`, with
    three numbers, two numbers or a vector.
  - A thrown string is `Result.Err` carrying the same string, both for the functions and for
    the methods of the class.
- `Vectors` (vectors.dfy) holds the class `Vector`. It has a constant `kind` and mutable
  fields `x`, `y` and `z`.
  - One class stands for both `Vector3D` and `Vector2D`. Each method branches on `kind` where
    the source overrides a method or tests `instanceof Vector2D`.
  - `Map`, `Scale`, `Set`, `Add` and `Subtract` change the fields in place (`modifies this`).
    Each one keeps `Valid()` and is proved equal to its function in `VectorValues`.
  - `Copy`, `Cross` and the static factories allocate a new object (`fresh`). They have no
    `modifies` clause, so they cannot change their arguments.

Components are `real`. This idealises the source's IEEE-754 doubles: rounding, NaN and
infinities are not modelled.

Each operand's components are read before any field of the receiver changes. So
`v.add(v)` doubles `v`, as in the source. The round trip `AddThenSubtract` is stated for
an operand value: it holds for a different vector object, and not when the operand is the
receiver itself.

Points a reader might not expect, which the model follows:
- The `Vector2D` error is the exact string the code throws, not a generic message.
- `Vector2D.subtract` throws the same text as `add`: "Cannot add an instance of Vector3D to
  a Vector2D" (src/vector.ts:196).
- `map` is not overridden in `Vector2D`. The base `map` tests `instanceof Vector2D` and then
  skips z.

## Model

| member | source | states |
|---|---|---|
| `VectorValues.Components` | src/vector.ts:99-102 | `toArray` has three entries for a `Vector3D` and two for a `Vector2D` (the override at lines 215-218) |
| `VectorValues.Mapped` | src/vector.ts:12-20 | `map(f)` keeps the class. Its components are `toArray()` mapped through `f`. A `Vector2D` keeps its z, so it stays valid |
| `VectorValues.Scaled` | src/vector.ts:74-79 | `scale(s)` multiplies x, y and (for a `Vector3D` only) z by `s`, and keeps the class invariant |
| `VectorValues.Assigned` | src/vector.ts:160-171 | `set` fails exactly when a `Vector2D` is given a vector that is not a `Vector2D`, with the source's message. Otherwise it keeps the class, a `Vector2D`'s z is untouched, and the result is valid |
| `VectorValues.Incremented` | src/vector.ts:175-186 | `add` has the same accept/reject rule and the "add" message. It keeps the class, leaves a `Vector2D`'s z alone and preserves the invariant |
| `VectorValues.Decremented` | src/vector.ts:190-201 | `subtract` has the same accept/reject rule and throws the same "add" message. It keeps the class, leaves a `Vector2D`'s z alone and preserves the invariant |
| `VectorValues.Dot` | src/vector.ts:80-83 | `dot` with a valid `Vector2D` on either side takes nothing from z. `DotSymmetric` proves it symmetric, and `MagSq` is `dot(v, v)` |
| `VectorValues.MagSq` | src/vector.ts:21-24 | `magSq` is never negative and equals `dot(v, v)` |
| `VectorValues.Cross` | src/vector.ts:84-90 | `cross` is always a `Vector3D` and has dot product 0 with both operands |
| `VectorValues.Copy` | src/vector.ts:219-222 | `copy` keeps the class and `toArray`. A `Vector2D`'s copy has z == 0 whatever z the original holds, and a valid vector's copy equals it (the `Vector3D.copy` at 107-110 for the other class) |
| `VectorValues.Sum3D` | src/vector.ts:112-115 | static `Vector3D.add` returns a `Vector3D` from which static `subtract` of the second argument gives back the first |
| `VectorValues.Difference3D` | src/vector.ts:116-119 | static `Vector3D.subtract` returns a `Vector3D` |
| `VectorValues.Zero3D` | src/vector.ts:120-123 | `Vector3D.zeroVector` is a `Vector3D` whose array is `[0, 0, 0]` |
| `VectorValues.FromArray3D` | src/vector.ts:141-144 | `Vector3D.fromArray(arr)` is a `Vector3D` whose `toArray` is the first three entries of `arr` |
| `VectorValues.From2Dto3D` | src/vector.ts:145-148 | `from2Dto3D` gives a `Vector3D` with the same x, y and z. For a valid `Vector2D`, z is 0 and `magSq` is unchanged |
| `VectorValues.Sum2D` | src/vector.ts:224-227 | static `Vector2D.add` returns a valid `Vector2D`. Static `subtract` of the second argument gives back the first |
| `VectorValues.Difference2D` | src/vector.ts:228-231 | static `Vector2D.subtract` returns a valid `Vector2D` |
| `VectorValues.Zero2D` | src/vector.ts:232-235 | `Vector2D.zeroVector` is a valid `Vector2D` whose array is `[0, 0]` |
| `VectorValues.FromArray2D` | src/vector.ts:244-247 | `Vector2D.fromArray(arr)` is a valid `Vector2D` whose `toArray` is the first two entries of `arr` |
| `VectorValues.ArrayRoundTrip` | src/vector.ts:141-144 | `fromArray(toArray(v)) == v` for both classes (with `Vector2D.fromArray` at 244-247 and the two `toArray`s) |
| `VectorValues.PlanarOperandOn3D` | src/vector.ts:32-73 | a `Vector3D` given a `Vector2D` operand: `set` makes z 0, while `add`/`subtract` change x and y and leave z as it was |
| `VectorValues.PlanarReceiver` | src/vector.ts:160-201 | on a `Vector2D` all three operations throw for a `Vector3D` operand. For a `Vector2D` or for numbers they write only x and y, and z stays 0. A third number, passed through a `Vector3D`-typed reference, is ignored |
| `VectorValues.SetTakesOperand` | src/vector.ts:32-58 | `set` with a vector of the receiver's class gives the receiver that vector's `toArray`, and a valid one exactly. On a `Vector3D`, `set(a, b, c)` gives `(a, b, c)`, and `add`/`subtract(a, b, c)` equal static `add`/`subtract` with `(a, b, c)` |
| `VectorValues.AddThenSubtract` | src/vector.ts:47-73 | `add` followed by `subtract` of the same operand restores the vector. An operand rejected by one is rejected by the other |
| `VectorValues.AssignIdempotent` | src/vector.ts:32-43 | `set` twice with the same operand equals `set` once |
| `VectorValues.InPlaceAgreesWithStatic` | src/vector.ts:112-119 | in-place `add`/`subtract` with a vector operand give the components of the receiver class's static `add`/`subtract` |
| `VectorValues.StaticInverses` | src/vector.ts:112-119 | static `subtract` undoes static `add`, and `add` undoes `subtract`, for `Vector3D` and, on valid `Vector2D`s, for the overrides at 224-231 |
| `VectorValues.ZeroIsIdentity` | src/vector.ts:120-123 | the zero vector of each class is a two-sided identity of that class's static `add` |
| `VectorValues.ScaleComposes` | src/vector.ts:74-79 | `scale(s)` then `scale(t)` equals `scale(s * t)` |
| `VectorValues.ScaleMagSq` | src/vector.ts:74-79 | scaling a valid vector by `s` multiplies `magSq` by `s * s` |
| `VectorValues.DotSymmetric` | src/vector.ts:80-83 | `dot` is symmetric |
| `VectorValues.CrossAntiCommutative` | src/vector.ts:84-90 | `u × w` is `-(w × u)`, and `u × u` is the zero vector |
| `VectorValues.ProductExamples` | src/vector.ts:21-90 | `magSq (3,4,12) = 169`, `(1,2,3)·(4,3,2) = 16`, `(1,2,3)·(4,3) = 10`, and `(1,0,0)×(0,1,0) = (0,0,1)`, also with a `Vector2D` second operand |
| `VectorValues.MapExamples` | src/vector.ts:12-20 | `map` squares (2,3,4) to (4,9,16). On `Vector2D(2,3)`, `n² + 1` gives (5,10) with z still 0. `scale(5)` of (2,3,4) is (10,15,20) |
| `VectorValues.Apply` | src/vector.ts:12-79 | one in-place call (the `Vector3D` methods here, with the `Vector2D` overrides at 160-201) keeps the class and a `Vector2D`'s z. A `set`, `add` or `subtract` that throws leaves the vector as it was |
| `VectorValues.RunKeepsClassAndPlane` | src/vector.ts:152-201 | after any sequence of `map`, `set`, `add`, `subtract` and `scale` calls, including three numbers given to a `Vector2D` through a `Vector3D`-typed reference, a vector keeps its class, and a `Vector2D` still has z == 0 |
| `Vectors.Vector.Make3D` | src/vector.ts:5-10 | the `Vector3D` constructor stores the three given components |
| `Vectors.Vector.Make2D` | src/vector.ts:153-155 | the `Vector2D` constructor stores x and y with z == 0 |
| `Vectors.Vector.Map` | src/vector.ts:12-20 | in place: the new components are `Mapped(old, f)`, built from `toArray().map(f)`. z is skipped on a `Vector2D`, and the invariant holds |
| `Vectors.Vector.Scale` | src/vector.ts:74-79 | in place through `Map`: the new components are `Scaled(old, s)` |
| `Vectors.Vector.Set` | src/vector.ts:32-43 | in place: the result is `Assigned` of the old components and the operand's values at the call. On a throw (the override at 160-171) `Err` carries the message and nothing changes. Three numbers on a `Vector2D` write x and y from the first two |
| `Vectors.Vector.Add` | src/vector.ts:47-58 | in place: the result is `Incremented`. On a throw (the override at 175-186) `Err` carries the message and nothing changes. Three numbers on a `Vector2D` write x and y from the first two |
| `Vectors.Vector.Subtract` | src/vector.ts:62-73 | in place: the result is `Decremented`. On a throw (the override at 190-201) `Err` carries the message and nothing changes. Three numbers on a `Vector2D` write x and y from the first two |
| `Vectors.Vector.Copy` | src/vector.ts:107-110 | a fresh valid object holding `VectorValues.Copy` of the receiver: the same class and `toArray`, with z reset to 0 for a `Vector2D` (the override at 219-222) |
| `Vectors.Vector.Cross` | src/vector.ts:84-90 | a fresh `Vector3D` holding `Cross` of the two operands. Neither operand is modified |
| `Vectors.Vector.Add3D` | src/vector.ts:112-115 | a fresh object holding `Sum3D` of the arguments |
| `Vectors.Vector.Subtract3D` | src/vector.ts:116-119 | a fresh object holding `Difference3D` of the arguments |
| `Vectors.Vector.ZeroVector3D` | src/vector.ts:120-123 | a fresh zero `Vector3D` |
| `Vectors.Vector.FromArray3D` | src/vector.ts:141-144 | a fresh `Vector3D` holding `FromArray3D(arr)` |
| `Vectors.Vector.From2Dto3D` | src/vector.ts:145-148 | a fresh `Vector3D` with the `Vector2D` argument's components |
| `Vectors.Vector.Add2D` | src/vector.ts:224-227 | a fresh valid `Vector2D` holding `Sum2D` of the arguments |
| `Vectors.Vector.Subtract2D` | src/vector.ts:228-231 | a fresh valid `Vector2D` holding `Difference2D` of the arguments |
| `Vectors.Vector.ZeroVector2D` | src/vector.ts:232-235 | a fresh zero `Vector2D` |
| `Vectors.Vector.FromArray2D` | src/vector.ts:244-247 | a fresh valid `Vector2D` holding `FromArray2D(arr)` |

## Left out

- `mag`, `setMagnitude`, `normalize` and static `unit` (src/vector.ts:25-28, 91-98, 124-129) are not modelled. They need `Math.sqrt`, and they divide by the magnitude without a guard, which gives NaN or Infinity at zero. There is no exact real-number contract for that floating-point behaviour. `ScaleMagSq` states the fact they rely on.
- `angle`, `setAngle`, `rotate`, `fromRTheta` and `fromAngle` (src/vector.ts:202-214, 248-255) are not modelled. They use `atan2`, `cos` and `sin`, which have no exact real-number contract. The test of `rotate` (tests/vector.test.ts:463-465) must round its result before comparing.
- `randUnitVector` and `randomVector` of both classes (src/vector.ts:130-140, 236-243) are not modelled, because they depend on `Math.random`.
- `toString` (src/vector.ts:103-106) is not modelled. It is the comma-joined text of `toArray`, and JavaScript's number-to-decimal formatting is outside this model.
- `VectorValues.FromArray3D` and `VectorValues.FromArray2D` require at least three (or two) entries. The source accepts a shorter array and leaves `undefined` in the missing components, which a `real` cannot hold.
- `Vectors.Vector.Set`, `Vectors.Vector.Add` and `Vectors.Vector.Subtract` require a call TypeScript accepts (`Accepts`). Two numbers given to a `Vector3D` are a compile-time error in the source, because `Vector3D` declares no two-number overload. At run time its z would become `undefined` (`set`) or `NaN` (`add`, `subtract`), and that is not modelled. An argument that is neither a number nor a vector is not an `Operand` at all.
- `Vectors.Vector.Add2D`, `Vectors.Vector.Subtract2D` and `Vectors.Vector.From2Dto3D` require `Vector2D` arguments, as their TypeScript parameter types do.
- The function passed to `map` is a total, side-effect-free `real -> real`. A JavaScript callback that throws or has effects is not modelled.
- Subclassing is modelled as one class with a constant `kind`. The source's fields are public, and a direct write of a nonzero `z` into a `Vector2D` from outside the class is not excluded by the model either. `Valid()` is the precondition every in-place method needs.
- `MagSq` states that the result is never negative. It does not state that it is 0 only for the zero vector.
