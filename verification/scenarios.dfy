/** The library's unit-test scenarios, stated as lemmas over the model. The computation the
    tests run most is Kotlin integer division, which throws `ArithmeticException` on a zero
    divisor; that error is the parameter `arith`. */
module Scenarios {
  import opened Eithers
  import opened Outcomes
  import opened Tries

  /** The magnitude of `x`. */
  function Abs(x: int): (r: nat)
    ensures r == x || r == -x
  {
    if x < 0 then -x else x
  }

  /** Kotlin's `a / b` on integers: the quotient truncated toward zero, or a raise of the
      arithmetic error when `b` is zero. */
  function Divide(a: int, b: int, arith: Err): (r: Outcome<int>)
    ensures r.Raises? <==> b == 0
    ensures r.Raises? ==> r.e == arith
    ensures r.Returns? ==> Abs(r.v * b) <= Abs(a) < Abs(r.v * b) + Abs(b)
    ensures r.Returns? && r.v != 0 ==> (r.v < 0 <==> (a < 0) != (b < 0))
  {
    if b == 0 then Raises(arith)
    else
      var q := Abs(a) / Abs(b);
      var v := if (a < 0) == (b < 0) then q else -q;
      TruncatedQuotient(a, b, q, v);
      Returns(v)
  }

  /** The magnitude of a product is the product of the magnitudes. */
  lemma AbsMul(x: int, y: int)
    ensures Abs(x * y) == Abs(x) * Abs(y)
  {
    if x < 0 && y < 0 {
      assert x * y == (-x) * (-y);
    } else if x < 0 {
      assert x * y == -((-x) * y);
    } else if y < 0 {
      assert x * y == -(x * (-y));
    }
  }

  /** Euclidean division of naturals: the quotient's multiple of `m` is the largest one
      not beyond `n`. */
  lemma DivBounds(n: nat, m: nat)
    requires m > 0
    ensures (n / m) * m <= n < (n / m) * m + m
  {
    var q, r := n / m, n % m;
    assert n == m * q + r && 0 <= r < m;
    assert m * q == q * m;
  }

  /** The quotient of the magnitudes, given the sign the operands call for, is the
      truncated quotient: its multiple of `b` is the largest one not beyond `a`. */
  lemma TruncatedQuotient(a: int, b: int, q: int, v: int)
    requires b != 0 && q == Abs(a) / Abs(b)
    requires v == if (a < 0) == (b < 0) then q else -q
    ensures Abs(v * b) <= Abs(a) < Abs(v * b) + Abs(b)
    ensures v != 0 ==> (v < 0 <==> (a < 0) != (b < 0))
  {
    var n, m := Abs(a), Abs(b);
    DivBounds(n, m);
    assert Abs(v) == q;
    AbsMul(v, b);
    assert Abs(v * b) == q * m;
  }

  /** `Try { 10 / 2 }` succeeds with 5 and renders as "Success: 5"; `Try { 10 / 0 }` fails
      with the arithmetic error, renders with the failure prefix, and `get` rethrows it. */
  lemma DivisionScenarios(arith: Err, show: int -> string, showErr: Err -> string)
    requires show(5) == "5"
    ensures Of(() => Divide(10, 2, arith)) == Success(5)
    ensures Get(Of(() => Divide(10, 2, arith))) == Returns(5)
    ensures Tries.Render(Of(() => Divide(10, 2, arith)), show, showErr) == "Success: 5"
    ensures IsFailure(Of(() => Divide(10, 0, arith)))
    ensures Get(Of(() => Divide(10, 0, arith))) == Raises(arith)
    ensures Tries.Render(Of(() => Divide(10, 0, arith)), show, showErr) == "Failure: " + showErr(arith)
  {
  }

  /** `map` of upper-casing over `Try { "HelloWorld" }` succeeds with the upper-cased string;
      `map` captures a division by zero inside its function; `flatMap` over a function that
      itself captures (`{ i -> Try { i / 0 } }`) yields a failure, and over
      `{ i -> Try { i.toString() } }` the rendered value; a failure stays a failure through
      both, even when the mapped function would divide by zero too. */
  lemma MapAndFlatMapScenarios(arith: Err, show: int -> string, upper: string -> string)
    requires upper("HelloWorld") == "HELLOWORLD"
    requires show(2) == "2"
    ensures Get(Map(Of(() => Returns("HelloWorld")), (s: string) => Returns(upper(s)))) == Returns("HELLOWORLD")
    ensures Map(Success(1), (i: int) => Divide(i, 0, arith)) == Failure(arith)
    ensures FlatMap(Success(2), (i: int) => Returns(Of(() => Divide(i, 0, arith)))) == Returns(Failure(arith))
    ensures Map(Failure(arith), (i: int) => Returns(i + 5)) == Failure(arith)
    ensures Map(Failure(arith), (i: int) => Divide(i, 0, arith)) == Failure(arith)
    ensures FlatMap(Success(2), (i: int) => Returns(Of(() => Returns(show(i))))) == Returns(Success("2"))
    ensures FlatMap(Failure(arith), (i: int) => Returns(Of(() => Returns(show(i))))) == Returns(Failure(arith))
  {
  }

  /** `orElse`, `getOrElse` and `fold` on `Try { 2 }` and `Try { 2 / 0 }`; folding the
      failure gives the error's message, which `message` stands for. */
  lemma AlternativeScenarios(arith: Err, show: int -> string, message: Err -> string)
    ensures OrElse(Success(2), Success(4)) == Success(2)
    ensures OrElse(Of(() => Divide(2, 0, arith)), Success(4)) == Success(4)
    ensures GetOrElse(Success(2), 4) == 2
    ensures GetOrElse(Of(() => Divide(2, 0, arith)), 4) == 4
    ensures Tries.Fold(Success(2), (_: Err) => 0, (i: int) => i * 2) == 4
    ensures Tries.Fold(Of(() => Divide(2, 0, arith)), message, (i: int) => show(i * 2)) == message(arith)
  {
  }

  const LeftNumber: Either<int, string> := Left(123)
  const RightGreeting: Either<int, string> := Right("Hello")

  const RightShout: Either<int, string> := Right("HELLO")

  /** `Left(123)` is a left, renders as "Left: 123" and folds through the left function;
      `Right("HELLO")` folds through the right function, here lower-casing. The test's two
      handlers return an `Int` and a `String`, whose common Kotlin type is `Any`; here the
      fold's result is tagged with the side that produced it. */
  lemma EitherScenarios(show: int -> string, lower: string -> string)
    requires show(123) == "123"
    requires lower("HELLO") == "hello"
    ensures IsLeft(LeftNumber) && !IsRight(LeftNumber)
    ensures Eithers.Render(LeftNumber, show, (s: string) => s) == "Left: 123"
    ensures Eithers.Render(RightGreeting, show, (s: string) => s) == "Right: Hello"
    ensures Eithers.Fold(LeftNumber, (i: int) => Left(i + 1), (s: string) => Right(lower(s))) == Left(124)
    ensures Eithers.Fold(RightShout, (i: int) => Left(i + 1), (s: string) => Right(lower(s))) == Right("hello")
  {
  }
}
