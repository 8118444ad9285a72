# ket: Either and Try, modelled in Dafny

ket is a small Kotlin library with two closed algebraic data types:

- `Either<L, R>`, a sealed union that is `Left(value)` or `Right(value)`. It has the
  predicates `isLeft`/`isRight`, a total `fold`, nullable projections
  `getLeft`/`getRight`, and `mapLeft`/`mapRight`. The two maps return the mapped value
  itself (or `null`), not a new `Either`.
- `Try<T>`, which is `Success(value)` or `Failure(error)`. Each variant stores an
  `Either<Throwable, T>`, with the error on the left and the value on the right. The
  capturing constructor `Try { body }` turns any raised `Throwable` into a `Failure`.
  The combinators are `get`, `getOrElse`, `orElse`, `map`, `flatMap` and `fold`.

The model is pure and functional:

- `eithers.dfy` (module `Eithers`) holds `Either` and its operations. `Option<T>` stands
  for Kotlin's nullable `T?`, with `None` as `null`.
- `outcomes.dfy` (module `Outcomes`) makes exceptions explicit. `Err` is an opaque error
  standing for `Throwable`. A computation yields `Outcome<T> = Returns(v) | Raises(e)`.
  `Then` runs one computation after another, letting a raise escape.
- `tries.dfy` (module `Tries`) holds `Try`. `Of(body)` is `Try { body }`. `Get` returns an
  `Outcome`, because `get()` on a `Failure` throws. `Map` takes a function that yields an
  `Outcome<U>` and captures it through `Of`. `FlatMap` takes a function that yields an
  `Outcome<Try<U>>` and returns that outcome as it is, so a raise escapes `flatMap`. This
  is the library's deliberate asymmetry: `map` catches, `flatMap` does not.
- `scenarios.dfy` (module `Scenarios`) states the library's unit-test scenarios as lemmas.

Dafny does not let two constructors share a field name at different types, so the union is
`Left(left: L) | Right(right: R)`. Payload and error string forms, which Kotlin takes from
`toString()`, are function parameters (`showL`, `showR`, `show`, `showErr`).

## Model

| member | source | states |
|---|---|---|
| Eithers.OptionMap | src/main/kotlin/com/github/nwillc/ket/Either.kt:25-26 | reference definition of Kotlin's `?.let` on a nullable value, which the contracts of `MapLeft` and `MapRight` are stated against: null stays null, a value `v` becomes `fn(v)` |
| Eithers.IsLeft | src/main/kotlin/com/github/nwillc/ket/Either.kt:20 | `isLeft` is true exactly when the value is not a `Right` |
| Eithers.IsRight | src/main/kotlin/com/github/nwillc/ket/Either.kt:19-20 | `isRight` is the negation of `isLeft`: exactly one of the two holds for every value |
| Eithers.Fold | src/main/kotlin/com/github/nwillc/ket/Either.kt:30-39 | on a `Left` the result is `lfn` of the left value, on a `Right` it is `rfn` of the right value |
| Eithers.GetLeft | src/main/kotlin/com/github/nwillc/ket/Either.kt:31-40 | non-null exactly on a `Left`, and then `Left` of the result is the receiver (a partial inverse of `Left`) |
| Eithers.GetRight | src/main/kotlin/com/github/nwillc/ket/Either.kt:32-41 | non-null exactly on a `Right`, and then `Right` of the result is the receiver |
| Eithers.MapLeft | src/main/kotlin/com/github/nwillc/ket/Either.kt:33-42 | equals `OptionMap(GetLeft(e), fn)` (in Kotlin this matches `getLeft()?.let(fn)` only when the stored value is non-null): the unwrapped `fn(v)` on `Left(v)`, null on any `Right`; non-null exactly on a `Left`, which matches Kotlin only when `fn`'s result type is non-nullable |
| Eithers.MapRight | src/main/kotlin/com/github/nwillc/ket/Either.kt:34-43 | equals `OptionMap(GetRight(e), fn)` (in Kotlin this matches `getRight()?.let(fn)` only when the stored value is non-null): the unwrapped `fn(v)` on `Right(v)`, null on any `Left`; non-null exactly on a `Right`, which matches Kotlin only when `fn`'s result type is non-nullable |
| Eithers.Render | src/main/kotlin/com/github/nwillc/ket/Either.kt:35-44 | the string starts with "Left: " or "Right: " according to the side, and the rest is the payload's string form |
| Eithers.FoldIgnoresUnusedBranch | src/main/kotlin/com/github/nwillc/ket/Either.kt:30-39 | replacing the function for the absent side never changes the fold's result |
| Eithers.FoldWithConstructors | src/main/kotlin/com/github/nwillc/ket/Either.kt:22-39 | folding with `Left` and `Right` rebuilds the value, so `fold` loses nothing |
| Eithers.ProjectionsAreFolds | src/main/kotlin/com/github/nwillc/ket/Either.kt:22-43 | `getLeft`, `getRight`, `mapLeft` and `mapRight` each agree with a fold that yields null on the other side |
| Eithers.ProjectionsDetermineValue | src/main/kotlin/com/github/nwillc/ket/Either.kt:23-41 | exactly one projection is non-null, and two values are equal exactly when both projections agree |
| Eithers.MapIdentityIsProjection | src/main/kotlin/com/github/nwillc/ket/Either.kt:31-43 | `mapLeft`/`mapRight` with the identity function are `getLeft`/`getRight` |
| Eithers.PrefixesDiffer | src/main/kotlin/com/github/nwillc/ket/Either.kt:35-44 | no string of the form "Left: …" equals one of the form "Right: …" |
| Eithers.RenderInjective | src/main/kotlin/com/github/nwillc/ket/Either.kt:35-44 | when the payload renderings are injective, equal renderings come from equal values |
| Outcomes.Then | src/main/kotlin/com/github/nwillc/ket/Try.kt:42-53 | reference definition of sequencing two throwing steps, which the contract of `Map` is stated against: a raise in the first step escapes and the second step is not run, otherwise the second step's outcome is the result |
| Tries.EitherOf | src/main/kotlin/com/github/nwillc/ket/Try.kt:38-49 | a `Success` stores `Right(value)` and a `Failure` stores `Left(error)` |
| Tries.FromEither | src/main/kotlin/com/github/nwillc/ket/Try.kt:38-49 | every stored union belongs to exactly one `Try`: `EitherOf` of the result is the given union |
| Tries.EitherRoundTrip | src/main/kotlin/com/github/nwillc/ket/Try.kt:38-49 | recovering the `Try` from its stored union gives back the same `Try` |
| Tries.IsSuccess | src/main/kotlin/com/github/nwillc/ket/Try.kt:26 | `isSuccess`, read from the union's right side, holds exactly for a `Success` |
| Tries.IsFailure | src/main/kotlin/com/github/nwillc/ket/Try.kt:26-27 | `isFailure`, read from the union's left side, holds exactly for a `Failure` and exactly when `isSuccess` does not |
| Tries.Fold | src/main/kotlin/com/github/nwillc/ket/Try.kt:30 | delegating to the union's fold gives `fb(v)` on `Success(v)` and `fa(e)` on `Failure(e)` |
| Tries.FoldFacts | src/main/kotlin/com/github/nwillc/ket/Try.kt:30-56 | folding with the two constructors rebuilds the `Try`, and `getOrElse(d)` is the fold with `d` on the error side |
| Tries.Of | src/main/kotlin/com/github/nwillc/ket/Try.kt:19-23 | `Try { body }` succeeds exactly when the body returns, holding the returned value; any raised error becomes the `Failure`'s error unchanged |
| Tries.Get | src/main/kotlin/com/github/nwillc/ket/Try.kt:40-50 | `get()` returns normally exactly on a `Success`, and capturing its behaviour with `Try { }` gives back the receiver, so a `Failure` throws exactly its stored error |
| Tries.GetAfterOf | src/main/kotlin/com/github/nwillc/ket/Try.kt:19-50 | `get()` on `Try { body }` returns what the body returned or throws what the body threw |
| Tries.GetOrElse | src/main/kotlin/com/github/nwillc/ket/Try.kt:44-56 | the value `get()` would return, or the default where `get()` would throw; the result is a plain value, so it never throws |
| Tries.OrElse | src/main/kotlin/com/github/nwillc/ket/Try.kt:45-57 | the receiver on a `Success`, the alternative `Try` itself on a `Failure`; the result succeeds exactly when the receiver or the alternative does |
| Tries.OrElseChain | src/main/kotlin/com/github/nwillc/ket/Try.kt:44-57 | `orElse` is associative, and `getOrElse` on `a.orElse(b)` is `a.getOrElse(b.getOrElse(d))` |
| Tries.Map | src/main/kotlin/com/github/nwillc/ket/Try.kt:42-53 | `get()` on the result behaves like `get()` on the receiver followed by `f`; a `Failure` maps to the same failure with the same error |
| Tries.MapIdentity | src/main/kotlin/com/github/nwillc/ket/Try.kt:42-53 | mapping a function that returns its argument gives back the receiver |
| Tries.MapComposition | src/main/kotlin/com/github/nwillc/ket/Try.kt:42-53 | two maps in a row equal one map of the two functions run in sequence, a raise in either being captured |
| Tries.MapFailureIgnoresFunction | src/main/kotlin/com/github/nwillc/ket/Try.kt:53 | on a `Failure`, the result is that failure whatever the function is, so the function plays no part |
| Tries.FlatMap | src/main/kotlin/com/github/nwillc/ket/Try.kt:43-55 | on `Success(v)` the outcome is `f(v)`, including a raise; on a `Failure` it returns that failure normally; a raise can only come from `f` |
| Tries.FlatMapLeftIdentity | src/main/kotlin/com/github/nwillc/ket/Try.kt:43 | `flatMap` on `Success(v)` is `f(v)` itself |
| Tries.FlatMapRightIdentity | src/main/kotlin/com/github/nwillc/ket/Try.kt:43-55 | `flatMap` with the `Success` constructor returns the receiver |
| Tries.FlatMapAssociative | src/main/kotlin/com/github/nwillc/ket/Try.kt:43-55 | nested `flatMap`s can be regrouped, with raises propagating the same way |
| Tries.MapIsCapturingFlatMap | src/main/kotlin/com/github/nwillc/ket/Try.kt:42-55 | `map(f)` equals `flatMap` of `f` wrapped in `Try { }` |
| Tries.MapCatchesFlatMapDoesNot | src/main/kotlin/com/github/nwillc/ket/Try.kt:42-43 | with a function that throws `e`, `map` on a `Success` returns `Failure(e)` while `flatMap` throws `e` |
| Tries.Render | src/main/kotlin/com/github/nwillc/ket/Try.kt:41-51 | the string starts with "Success: " or "Failure: " according to the variant, and the rest is the string form of the value or the error |
| Tries.PrefixesDiffer | src/main/kotlin/com/github/nwillc/ket/Try.kt:41-51 | no string of the form "Success: …" equals one of the form "Failure: …" |
| Tries.RenderInjective | src/main/kotlin/com/github/nwillc/ket/Try.kt:41-51 | when the value and error renderings are injective, equal renderings come from equal `Try`s |
| Scenarios.Abs | src/test/kotlin/com/github/nwillc/ket/TryTest.kt:25 | helper for `Divide`, not an operation of the library: the magnitude of an integer, equal to it or to its negation |
| Scenarios.Divide | src/test/kotlin/com/github/nwillc/ket/TryTest.kt:25-34 | Kotlin integer division: it raises the arithmetic error exactly on a zero divisor, and otherwise truncates toward zero |
| Scenarios.AbsMul | src/test/kotlin/com/github/nwillc/ket/TryTest.kt:25 | the magnitude of a product is the product of the magnitudes, used to bound the truncated quotient |
| Scenarios.DivBounds | src/test/kotlin/com/github/nwillc/ket/TryTest.kt:25 | for naturals, the quotient's multiple of the divisor is the largest one not beyond the dividend |
| Scenarios.TruncatedQuotient | src/test/kotlin/com/github/nwillc/ket/TryTest.kt:25 | dividing the magnitudes and restoring the sign gives the quotient truncated toward zero, as Kotlin's `/` does |
| Scenarios.DivisionScenarios | src/test/kotlin/com/github/nwillc/ket/TryTest.kt:24-38 | `Try { 10 / 2 }` is `Success(5)` rendering as "Success: 5"; `Try { 10 / 0 }` fails, renders with the failure prefix and rethrows its error from `get()` |
| Scenarios.MapAndFlatMapScenarios | src/test/kotlin/com/github/nwillc/ket/TryTest.kt:40-100 | the map and flatMap test cases: map of upper-casing on a `Success`, map of a function that divides by zero on a `Success` and on a `Failure`, map of a total function on a `Failure`, flatMap into `Try { i / 0 }` and into `Try { i.toString() }` on a `Success` (the latter giving `Success("2")`), and flatMap into `Try { i.toString() }` on a `Failure` |
| Scenarios.AlternativeScenarios | src/test/kotlin/com/github/nwillc/ket/TryTest.kt:103-142 | the orElse, getOrElse and fold test cases, including the fold of `Try { 2 / 0 }` yielding the error's message |
| Scenarios.EitherScenarios | src/test/kotlin/com/github/nwillc/ket/EitherTest.kt:24-51 | `Left(123)` is a left, renders as "Left: 123" and folds through the left function; `Right("Hello")` renders as "Right: Hello"; `Right("HELLO")` folds through the right function |

## Left out

- The JVM `Throwable` hierarchy and its message text (for example "/ by zero") are not modelled. An error is the opaque type `Err`, and its string form is the parameter `showErr`.
- Generic `toString()` of payloads is not modelled. The renderings take the payload's string form as a function parameter.
- Reference identity is not modelled. `Try`, `Success`, `Failure`, `Left` and `Right` do not override `equals`, so Kotlin's `==` on two separately built values compares references; every `==` between `Try` or `Either` values in the model is structural equality, which laws such as `MapIdentity` rely on. Where `orElse`, `map` and `flatMap` return `this`, the model returns an equal value. On a `Failure`, `map` and `flatMap` rebuild `Failure(error)` at the new type; the source does an unchecked cast.
- Kotlin variance annotations and `@UnsafeVariance` are typing details with no behaviour, so they are not modelled.
- Eithers.GetLeft: Kotlin's `L?` collapses a stored `null` into "absent" when `L` is itself nullable. `Option` keeps `Some(None)` and `None` apart, so the model is exact only when `L` is non-nullable.
- Eithers.GetRight: the same collapse for `R?`, so the model is exact only when `R` is non-nullable.
- Eithers.MapLeft: Kotlin's result `T?` is null on a `Left` whenever `fn` returns null, even for a non-nullable payload. The model returns `Some` of `fn`'s result on every `Left`, so it is exact only when `fn`'s result type is non-nullable. Its stated equality with `OptionMap(GetLeft(e), fn)` is about the model: in Kotlin `Left<Int?>(null).mapLeft { 1 }` is `1` while `getLeft()?.let { 1 }` is null, and the model agrees with the former.
- Eithers.MapRight: the same collapse on a `Right` whenever `fn` returns null, so the model is exact only when `fn`'s result type is non-nullable. Likewise its equality with `OptionMap(GetRight(e), fn)` matches `getRight()?.let(fn)` only for a non-null stored value.
- Scenarios.Divide: models unbounded integers, so the 32-bit wrap-around of `Int.MIN_VALUE / -1` is not modelled. The tests only divide small numbers.
- The capturing constructor runs its body once, synchronously; that is not modelled. A computation is a pure function `() -> Outcome<T>`, so running it has no effect to count.
- The build script (build, lint, coverage and publishing configuration) is out of scope. It has no runtime logic.
