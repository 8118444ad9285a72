/** Either.kt: a sealed union holding exactly one of two values, tagged Left or Right,
    with predicates, a total fold, nullable projections and a string rendering.

    Kotlin's nullable `T?` is modelled by `Option<T>`, with `None` standing for `null`. */
module Eithers {

  /** A nullable value: `None` is Kotlin's `null`. */
  datatype Option<+T> = None | Some(value: T)

  /** Kotlin's `?.let`: apply `fn` to a non-null value, keep `null` as it is. */
  function OptionMap<T, U>(o: Option<T>, fn: T -> U): (r: Option<U>)
    ensures r.Some? <==> o.Some?
    ensures o.Some? ==> r.value == fn(o.value)
  {
    match o
    case None => None
    case Some(v) => Some(fn(v))
  }

  /** The closed union: no third variant, no "neither" and no "both". */
  datatype Either<+L, +R> = Left(left: L) | Right(right: R)

  /** `isLeft`: the value was built by `Left`; otherwise it was built by `Right`. */
  function IsLeft<L, R>(e: Either<L, R>): (b: bool)
    ensures b != e.Right?
  {
    e.Left?
  }

  /** `isRight`: the value was built by `Right`; exactly one of the two predicates holds. */
  function IsRight<L, R>(e: Either<L, R>): (b: bool)
    ensures b != IsLeft(e)
  {
    e.Right?
  }

  /** `fold`: collapse to one result, applying only the function for the side present. */
  function Fold<L, R, T>(e: Either<L, R>, lfn: L -> T, rfn: R -> T): (r: T)
    ensures IsLeft(e) ==> r == lfn(e.left)
    ensures IsRight(e) ==> r == rfn(e.right)
  {
    match e
    case Left(v) => lfn(v)
    case Right(v) => rfn(v)
  }

  /** `getLeft`: the left value, or `null` on a `Right`. A partial inverse of `Left`. */
  function GetLeft<L, R>(e: Either<L, R>): (r: Option<L>)
    ensures r.Some? <==> IsLeft(e)
    ensures r.Some? ==> e == Left(r.value)
  {
    match e
    case Left(v) => Some(v)
    case Right(_) => None
  }

  /** `getRight`: the right value, or `null` on a `Left`. A partial inverse of `Right`. */
  function GetRight<L, R>(e: Either<L, R>): (r: Option<R>)
    ensures r.Some? <==> IsRight(e)
    ensures r.Some? ==> e == Right(r.value)
  {
    match e
    case Left(_) => None
    case Right(v) => Some(v)
  }

  /** `mapLeft`: the unwrapped `fn(value)` on a `Left`, `null` on a `Right`; it does not
      rebuild an `Either`. It is `OptionMap(GetLeft(e), fn)`, which in Kotlin matches
      `getLeft()?.let(fn)` only when the stored value is non-null. */
  function MapLeft<L, R, T>(e: Either<L, R>, fn: L -> T): (r: Option<T>)
    ensures r == OptionMap(GetLeft(e), fn)
    ensures r.Some? <==> IsLeft(e)
  {
    match e
    case Left(v) => Some(fn(v))
    case Right(_) => None
  }

  /** `mapRight`: the unwrapped `fn(value)` on a `Right`, `null` on a `Left`. It is
      `OptionMap(GetRight(e), fn)`, which in Kotlin matches `getRight()?.let(fn)` only when
      the stored value is non-null. */
  function MapRight<L, R, T>(e: Either<L, R>, fn: R -> T): (r: Option<T>)
    ensures r == OptionMap(GetRight(e), fn)
    ensures r.Some? <==> IsRight(e)
  {
    match e
    case Left(_) => None
    case Right(v) => Some(fn(v))
  }

  const LeftPrefix: string := "Left: "
  const RightPrefix: string := "Right: "

  /** `toString`: the side's prefix followed by the payload's own string form, which
      `showL` and `showR` stand for. */
  function Render<L, R>(e: Either<L, R>, showL: L -> string, showR: R -> string): (s: string)
    ensures IsLeft(e) ==> |s| >= |LeftPrefix| && s[..|LeftPrefix|] == LeftPrefix
    ensures IsLeft(e) ==> s[|LeftPrefix|..] == showL(e.left)
    ensures IsRight(e) ==> |s| >= |RightPrefix| && s[..|RightPrefix|] == RightPrefix
    ensures IsRight(e) ==> s[|RightPrefix|..] == showR(e.right)
  {
    match e
    case Left(v) => LeftPrefix + showL(v)
    case Right(v) => RightPrefix + showR(v)
  }

  // ---------------------------------------------------------------------------
  // Properties relating the operations to one another.

  /** Whatever the unused function is, `fold` gives the same result: it is never consulted. */
  lemma FoldIgnoresUnusedBranch<L, R, T>(e: Either<L, R>, lfn: L -> T, lfn': L -> T,
                                         rfn: R -> T, rfn': R -> T)
    ensures IsLeft(e) ==> Fold(e, lfn, rfn) == Fold(e, lfn, rfn')
    ensures IsRight(e) ==> Fold(e, lfn, rfn) == Fold(e, lfn', rfn)
  {
  }

  /** Folding with the two constructors rebuilds the value: `fold` loses nothing. */
  lemma FoldWithConstructors<L, R>(e: Either<L, R>)
    ensures Fold(e, (v: L) => Left(v), (v: R) => Right(v)) == e
  {
  }

  /** The projections and maps are folds with `null` on the other side. */
  lemma ProjectionsAreFolds<L, R, T>(e: Either<L, R>, fl: L -> T, fr: R -> T)
    ensures GetLeft(e) == Fold(e, (v: L) => Some(v), (_: R) => None)
    ensures GetRight(e) == Fold(e, (_: L) => None, (v: R) => Some(v))
    ensures MapLeft(e, fl) == Fold(e, (v: L) => Some(fl(v)), (_: R) => None)
    ensures MapRight(e, fr) == Fold(e, (_: L) => None, (v: R) => Some(fr(v)))
  {
  }

  /** Exactly one projection is non-null, and together they determine the value. */
  lemma ProjectionsDetermineValue<L, R>(e: Either<L, R>, e': Either<L, R>)
    ensures GetLeft(e).Some? != GetRight(e).Some?
    ensures e == e' <==> GetLeft(e) == GetLeft(e') && GetRight(e) == GetRight(e')
  {
  }

  /** Mapping with the identity is the projection itself. */
  lemma MapIdentityIsProjection<L, R>(e: Either<L, R>)
    ensures MapLeft(e, (v: L) => v) == GetLeft(e)
    ensures MapRight(e, (v: R) => v) == GetRight(e)
  {
  }

  /** No left rendering is a right rendering: the prefixes differ in their first character. */
  lemma PrefixesDiffer(x: string, y: string)
    ensures LeftPrefix + x != RightPrefix + y
  {
    assert (LeftPrefix + x)[0] == 'L' && (RightPrefix + y)[0] == 'R';
  }

  /** The rendering names the side, and with injective payload renderings it loses nothing:
      two values with the same string form are equal. */
  lemma RenderInjective<L, R>(e: Either<L, R>, e': Either<L, R>,
                              showL: L -> string, showR: R -> string)
    requires forall a, b :: showL(a) == showL(b) ==> a == b
    requires forall a, b :: showR(a) == showR(b) ==> a == b
    requires Render(e, showL, showR) == Render(e', showL, showR)
    ensures e == e'
  {
    // Different sides cannot render alike: the prefixes already differ at the first
    // character. On the same side, the payload renderings are what follows the prefix.
    var s := Render(e, showL, showR);
    match (e, e')
    case (Left(a), Left(b)) =>
      assert showL(a) == s[|LeftPrefix|..] == showL(b);
    case (Right(a), Right(b)) =>
      assert showR(a) == s[|RightPrefix|..] == showR(b);
    case (Left(a), Right(b)) =>
      PrefixesDiffer(showL(a), showR(b));
    case (Right(a), Left(b)) =>
      PrefixesDiffer(showL(b), showR(a));
  }
}
