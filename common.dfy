/** Values shared by every part of the model: nullable values, the error
    kinds the services raise, the numeric representation of quantities and
    small sequence helpers. */
module Common {

  /** A Java reference that may be null. */
  datatype Option<+T> = None | Some(value: T) {
    /** The value, or `default` when null. */
    function GetOr(default: T): (r: T)
      ensures Some? ==> r == value
      ensures None? ==> r == default
    {
      match this
      case Some(v) => v
      case None => default
    }
  }

  /** A text criterion that takes part in a filter: neither null nor
      empty. */
  predicate Activo(s: Option<string>) {
    s.Some? && s.value != ""
  }

  /** The failures the services report. Each constructor is one Java
      exception (or HTTP status carried by ResponseStatusException). */
  datatype Error =
    | NotFound           // ResponseStatusException(HttpStatus.NOT_FOUND)
    | BadRequest         // ResponseStatusException(HttpStatus.BAD_REQUEST)
    | ResourceNotFound   // ResourceNotFoudException
    | InsufficientStock  // InsufficientStockException
    | InvalidOperation   // InvalidOperationException
    | IllegalArgument    // IllegalArgumentException
    | NullPointer        // NullPointerException (auto-unboxing of a null)
    | IncorrectResultSize // IncorrectResultSizeDataAccessException

  /** The outcome of an operation that either yields a value or fails. */
  datatype Result<+T> = Ok(value: T) | Err(error: Error)

  /** A BigDecimal quantity (or a Double weight) as an exact count of
      ten-thousandths, the scale the lot import rounds to. */
  type Decimal = int

  /** A LocalDateTime, as an abstract ordered instant. */
  type Timestamp = int

  /** A LocalDate, as an abstract ordered day. */
  type Date = int

  /** The text Java's string concatenation produces for a nullable String. */
  function JavaString(s: Option<string>): (r: string)
    ensures s.Some? ==> r == s.value
    ensures s.None? ==> r == "null"
  {
    s.GetOr("null")
  }

  /** A stream `filter`: the elements satisfying `p`, in their order. */
  function Filter<T(!new)>(s: seq<T>, p: T -> bool): (r: seq<T>)
    ensures |r| <= |s|
    ensures forall x :: x in r <==> x in s && p(x)
    ensures multiset(r) <= multiset(s)
  {
    if s == [] then []
    else
      assert s == [s[0]] + s[1..];
      (if p(s[0]) then [s[0]] else []) + Filter(s[1..], p)
  }

  /** A filter keeps every copy of each element that passes and no copy of
      one that fails. */
  lemma {:induction false} FilterMultiset<T(!new)>(s: seq<T>, p: T -> bool)
    ensures forall x :: multiset(Filter(s, p))[x] == if p(x) then multiset(s)[x] else 0
  {
    if s != [] {
      FilterMultiset(s[1..], p);
      assert s == [s[0]] + s[1..];
      assert multiset(s) == multiset([s[0]]) + multiset(s[1..]);
    }
  }

  lemma {:induction false} FilterConcat<T(!new)>(a: seq<T>, b: seq<T>, p: T -> bool)
    ensures Filter(a + b, p) == Filter(a, p) + Filter(b, p)
  {
    if a == [] {
      assert a + b == b;
    } else {
      assert (a + b)[1..] == a[1..] + b;
      FilterConcat(a[1..], b, p);
    }
  }

  /** A filter that keeps every element returns the sequence unchanged. */
  lemma {:induction false} FilterAll<T(!new)>(s: seq<T>, p: T -> bool)
    requires forall x :: x in s ==> p(x)
    ensures Filter(s, p) == s
  {
    if s != [] {
      FilterAll(s[1..], p);
      assert s == [s[0]] + s[1..];
    }
  }

  /** A filter that keeps no element returns the empty sequence. */
  lemma {:induction false} FilterNone<T(!new)>(s: seq<T>, p: T -> bool)
    requires forall x :: x in s ==> !p(x)
    ensures Filter(s, p) == []
  {
    if s != [] {
      assert s[0] in s;
      FilterNone(s[1..], p);
    }
  }

  /** The sum of `f` over the elements of `s`. */
  function SumOf<T>(s: seq<T>, f: T -> int): int {
    if s == [] then 0 else SumOf(s[..|s| - 1], f) + f(s[|s| - 1])
  }

  lemma SumOfAppend<T>(s: seq<T>, x: T, f: T -> int)
    ensures SumOf(s + [x], f) == SumOf(s, f) + f(x)
  {
    assert (s + [x])[..|s|] == s;
  }

  /** Replacing one element changes the sum by the difference of the two. */
  lemma {:induction false} SumOfUpdate<T>(s: seq<T>, i: int, x: T, f: T -> int)
    requires 0 <= i < |s|
    ensures SumOf(s[i := x], f) == SumOf(s, f) - f(s[i]) + f(x)
  {
    var n := |s|;
    if i == n - 1 {
      assert s[i := x][..n - 1] == s[..n - 1];
    } else {
      assert s[i := x][..n - 1] == s[..n - 1][i := x];
      SumOfUpdate(s[..n - 1], i, x, f);
    }
  }

  /** The number of elements satisfying `p`. */
  function Count<T(!new)>(s: seq<T>, p: T -> bool): (n: nat)
    ensures n == |Filter(s, p)|
  {
    if s == [] then 0
    else (if p(s[0]) then 1 else 0) + Count(s[1..], p)
  }

  /** The index of the first element satisfying `p`. */
  function FirstIndex<T>(s: seq<T>, p: T -> bool): (r: Option<nat>)
    ensures r.Some? ==> r.value < |s| && p(s[r.value])
    ensures r.Some? ==> forall j :: 0 <= j < r.value ==> !p(s[j])
    ensures r.None? ==> forall j :: 0 <= j < |s| ==> !p(s[j])
  {
    if s == [] then None
    else if p(s[0]) then Some(0)
    else match FirstIndex(s[1..], p)
      case None => None
      case Some(k) => Some(k + 1)
  }

  /** What a Mono-returning derived finder yields: nothing when no row
      matches, the one matching row, or IncorrectResultSizeDataAccessException
      when more than one row matches. */
  function SingleIndex<T>(s: seq<T>, p: T -> bool): (r: Result<Option<nat>>)
    ensures r.Err? ==> r.error == IncorrectResultSize
    ensures r == Ok(None) <==> forall j :: 0 <= j < |s| ==> !p(s[j])
    ensures r.Ok? && r.value.Some? ==>
      && r.value.value < |s| && p(s[r.value.value])
      && forall j :: 0 <= j < |s| && j != r.value.value ==> !p(s[j])
    ensures r.Err? <==> exists j, k :: 0 <= j < k < |s| && p(s[j]) && p(s[k])
  {
    match FirstIndex(s, p)
    case None => Ok(None)
    case Some(i) =>
      if exists k :: i < k < |s| && p(s[k]) then Err(IncorrectResultSize) else Ok(Some(i))
  }
}
