/** Try.kt: the outcome of a computation that may throw, either `Success(value)` or
    `Failure(error)`, each backed by an `Either` with the error on the left and the value
    on the right. `Of` is the capturing constructor `Try { body }`. */
module Tries {
  import opened Eithers
  import opened Outcomes

  datatype Try<+T> = Success(value: T) | Failure(error: Err)

  /** `either`: a `Success` stores `Right(value)`, a `Failure` stores `Left(error)`. */
  function EitherOf<T>(t: Try<T>): (e: Either<Err, T>)
    ensures t.Success? ==> GetRight(e) == Some(t.value)
    ensures t.Failure? ==> GetLeft(e) == Some(t.error)
  {
    match t
    case Success(v) => Right(v)
    case Failure(err) => Left(err)
  }

  /** The `Try` a given `either` belongs to: the inverse of `EitherOf`. */
  function FromEither<T>(e: Either<Err, T>): (t: Try<T>)
    ensures EitherOf(t) == e
  {
    match e
    case Left(err) => Failure(err)
    case Right(v) => Success(v)
  }

  /** `isSuccess`, read off the stored union's right side. */
  function IsSuccess<T>(t: Try<T>): (b: bool)
    ensures b <==> t.Success?
  {
    IsRight(EitherOf(t))
  }

  /** `isFailure`, read off the stored union's left side; exactly one of the two holds. */
  function IsFailure<T>(t: Try<T>): (b: bool)
    ensures b <==> t.Failure?
    ensures b != IsSuccess(t)
  {
    IsLeft(EitherOf(t))
  }

  /** `fold(fa, fb)`: the stored union's fold, error handler first. */
  function Fold<T, U>(t: Try<T>, fa: Err -> U, fb: T -> U): (r: U)
    ensures t.Success? ==> r == fb(t.value)
    ensures t.Failure? ==> r == fa(t.error)
  {
    Eithers.Fold(EitherOf(t), fa, fb)
  }

  /** `Try { body }`: run the computation once; a normal return becomes `Success`, any
      raised error, whatever it is, becomes `Failure` carrying that very error. */
  function Of<T>(body: () -> Outcome<T>): (t: Try<T>)
    ensures IsSuccess(t) <==> body().Returns?
    ensures body().Returns? ==> t.value == body().v
    ensures body().Raises? ==> t.error == body().e
  {
    match body()
    case Returns(v) => Success(v)
    case Raises(err) => Failure(err)
  }

  /** `get()`: the value of a `Success`; on a `Failure` it throws the stored error.
      Capturing what `get` does gives back the same `Try`. */
  function Get<T>(t: Try<T>): (r: Outcome<T>)
    ensures r.Returns? <==> IsSuccess(t)
    ensures Of(() => r) == t
  {
    match t
    case Success(v) => Returns(v)
    case Failure(err) => Raises(err)
  }

  /** `getOrElse(default)`: what `get` would return, or `default` where it would throw;
      it never throws itself. */
  function GetOrElse<T>(t: Try<T>, default: T): (r: T)
    ensures Get(t).Returns? ==> r == Get(t).v
    ensures Get(t).Raises? ==> r == default
  {
    match t
    case Success(v) => v
    case Failure(_) => default
  }

  /** `orElse(default)`: the receiver itself when it succeeded, otherwise the alternative
      `Try` as a whole (not its value). */
  function OrElse<T>(t: Try<T>, alt: Try<T>): (r: Try<T>)
    ensures IsSuccess(t) ==> r == t
    ensures IsFailure(t) ==> r == alt
    ensures IsSuccess(r) <==> IsSuccess(t) || IsSuccess(alt)
  {
    match t
    case Success(_) => t
    case Failure(_) => alt
  }

  /** `map(f)`: on a `Success`, `Try { f(value) }`, so a raise inside `f` is captured as a
      `Failure`; on a `Failure`, the same failure and `f` is not run. Either way, `get` on
      the result behaves like `get` on the receiver followed by `f`. */
  function Map<T, U>(t: Try<T>, f: T -> Outcome<U>): (r: Try<U>)
    ensures Get(r) == Then(Get(t), f)
    ensures IsFailure(t) ==> r == Failure(t.error)
  {
    match t
    case Success(v) => Of(() => f(v))
    case Failure(err) => Failure(err)
  }

  /** `flatMap(f)`: on a `Success`, whatever `f(value)` does, including a raise, which is
      NOT captured; on a `Failure`, the same failure, returned normally. */
  function FlatMap<T, U>(t: Try<T>, f: T -> Outcome<Try<U>>): (r: Outcome<Try<U>>)
    ensures IsSuccess(t) ==> r == f(t.value)
    ensures IsFailure(t) ==> r == Returns(Failure(t.error))
    ensures r.Raises? ==> IsSuccess(t) && f(t.value) == r
  {
    match t
    case Success(v) => f(v)
    case Failure(err) => Returns(Failure(err))
  }

  const SuccessPrefix: string := "Success: "
  const FailurePrefix: string := "Failure: "

  /** `toString`: the variant's prefix, then the string form of the value or the error,
      which `show` and `showErr` stand for. */
  function Render<T>(t: Try<T>, show: T -> string, showErr: Err -> string): (s: string)
    ensures IsSuccess(t) ==> |s| >= |SuccessPrefix| && s[..|SuccessPrefix|] == SuccessPrefix
    ensures IsSuccess(t) ==> s[|SuccessPrefix|..] == show(t.value)
    ensures IsFailure(t) ==> |s| >= |FailurePrefix| && s[..|FailurePrefix|] == FailurePrefix
    ensures IsFailure(t) ==> s[|FailurePrefix|..] == showErr(t.error)
  {
    match t
    case Success(v) => SuccessPrefix + show(v)
    case Failure(err) => FailurePrefix + showErr(err)
  }

  // ---------------------------------------------------------------------------
  // The capturing constructor and `get`.

  /** `get` after `Try { body }` does what `body` did: it returns the same value or throws
      the same error. */
  lemma GetAfterOf<T>(body: () -> Outcome<T>)
    ensures Get(Of(body)) == body()
  {
  }

  /** The stored union and the `Try` determine each other. */
  lemma EitherRoundTrip<T>(t: Try<T>)
    ensures FromEither(EitherOf(t)) == t
  {
  }

  /** Folding with the two constructors rebuilds the `Try`; `getOrElse` is a fold. */
  lemma FoldFacts<T>(t: Try<T>, default: T)
    ensures Fold(t, (err: Err) => Failure(err), (v: T) => Success(v)) == t
    ensures GetOrElse(t, default) == Fold(t, (_: Err) => default, (v: T) => v)
  {
  }

  // ---------------------------------------------------------------------------
  // `orElse`.

  /** `orElse` chains alternatives: it is associative, and `getOrElse` on the chain takes
      the first value that is there. */
  lemma OrElseChain<T>(a: Try<T>, b: Try<T>, c: Try<T>, default: T)
    ensures OrElse(OrElse(a, b), c) == OrElse(a, OrElse(b, c))
    ensures GetOrElse(OrElse(a, b), default) == GetOrElse(a, GetOrElse(b, default))
  {
  }

  // ---------------------------------------------------------------------------
  // `map`.

  /** Mapping a computation that just returns its argument changes nothing. */
  lemma MapIdentity<T>(t: Try<T>)
    ensures Map(t, (v: T) => Returns(v)) == t
  {
  }

  /** Two maps in a row are one map of the two steps run in sequence. */
  lemma MapComposition<T, U, V>(t: Try<T>, f: T -> Outcome<U>, g: U -> Outcome<V>)
    ensures Map(Map(t, f), g) == Map(t, (v: T) => Then(f(v), g))
  {
  }

  /** A failure passes through `map` untouched, whatever the function. */
  lemma MapFailureIgnoresFunction<T, U>(err: Err, f: T -> Outcome<U>, f': T -> Outcome<U>)
    ensures Map(Failure(err), f) == Map(Failure(err), f') == Failure(err)
  {
  }

  // ---------------------------------------------------------------------------
  // `flatMap`.

  /** On a `Success`, `flatMap` is the function applied to the value. */
  lemma FlatMapLeftIdentity<T, U>(v: T, f: T -> Outcome<Try<U>>)
    ensures FlatMap(Success(v), f) == f(v)
  {
  }

  /** `flatMap` with the `Success` constructor returns the receiver. */
  lemma FlatMapRightIdentity<T>(t: Try<T>)
    ensures FlatMap(t, (v: T) => Returns(Success(v))) == Returns(t)
  {
  }

  /** Nested `flatMap`s may be regrouped. */
  lemma FlatMapAssociative<T, U, V>(t: Try<T>, f: T -> Outcome<Try<U>>, g: U -> Outcome<Try<V>>)
    ensures Then(FlatMap(t, f), (s: Try<U>) => FlatMap(s, g))
         == FlatMap(t, (v: T) => Then(f(v), (s: Try<U>) => FlatMap(s, g)))
  {
  }

  /** `map` is `flatMap` with the function's call wrapped in the capturing constructor. */
  lemma MapIsCapturingFlatMap<T, U>(t: Try<T>, f: T -> Outcome<U>)
    ensures FlatMap(t, (v: T) => Returns(Of(() => f(v)))) == Returns(Map(t, f))
  {
  }

  /** The deliberate asymmetry: a function that throws makes `map` return a `Failure`
      carrying the error, while the same throw escapes from `flatMap`. */
  lemma MapCatchesFlatMapDoesNot<T, U>(v: T, err: Err)
    ensures Map<T, U>(Success(v), (_: T) => Raises(err)) == Failure(err)
    ensures FlatMap<T, U>(Success(v), (_: T) => Raises(err)) == Raises(err)
  {
  }

  // ---------------------------------------------------------------------------
  // `toString`.

  /** No success rendering is a failure rendering: "S" and "F" differ. */
  lemma PrefixesDiffer(x: string, y: string)
    ensures SuccessPrefix + x != FailurePrefix + y
  {
    assert (SuccessPrefix + x)[0] == 'S' && (FailurePrefix + y)[0] == 'F';
  }

  /** With injective renderings of values and errors, the string form of a `Try`
      determines it. */
  lemma RenderInjective<T>(t: Try<T>, t': Try<T>, show: T -> string, showErr: Err -> string)
    requires forall a, b :: show(a) == show(b) ==> a == b
    requires forall a, b :: showErr(a) == showErr(b) ==> a == b
    requires Render(t, show, showErr) == Render(t', show, showErr)
    ensures t == t'
  {
    var s := Render(t, show, showErr);
    match (t, t')
    case (Success(a), Success(b)) =>
      assert show(a) == s[|SuccessPrefix|..] == show(b);
    case (Failure(a), Failure(b)) =>
      assert showErr(a) == s[|FailurePrefix|..] == showErr(b);
    case (Success(a), Failure(b)) =>
      PrefixesDiffer(show(a), showErr(b));
    case (Failure(a), Success(b)) =>
      PrefixesDiffer(show(b), showErr(a));
  }
}
