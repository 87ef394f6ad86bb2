/** Shared vocabulary of the model: optional values, the outcome of an HTTP
    request, the JavaScript numbers the components test for truthiness, and
    the array operations (`filter`, `find`, `findIndex`) they call. */
module Common {

  /** A JavaScript value that may be `null` or `undefined` (both are `None`). */
  datatype Option<+T> = None | Some(value: T) {
    function GetOr(default: T): T {
      match this
      case Some(v) => v
      case None => default
    }
  }

  /** The settled outcome of a request: a parsed body, or the `message` of the
      error the promise chain rejected with. */
  datatype Response<+T> = Ok(body: T) | Failed(message: string)

  /** A JavaScript number as produced by `+s` or `Number(s)`: an integral
      value, or `NaN`. */
  datatype JsNumber = Finite(value: int) | NaN {
    /** `if (x)` on a number: false for `0` and for `NaN`. */
    predicate Truthy() {
      Finite? && value != 0
    }

    /** `x === n` for an integral `n`: `NaN` equals nothing. */
    predicate StrictEquals(n: int) {
      Finite? && value == n
    }
  }

  /** The warehouse record as far as the trust checks read it. */
  datatype WarehouseRecord = WarehouseRecord(isTrusted: Option<bool>)

  /** `data.isTrusted || false`: only a stored `true` makes the warehouse trusted. */
  function TrustedBy(record: WarehouseRecord): (r: bool)
    ensures record.isTrusted.None? ==> !r
    ensures record.isTrusted.Some? ==> r == record.isTrusted.value
  {
    record.isTrusted == Some(true)
  }

  /** The CSS class of the trust banner, the same in the list view and the
      edit form: while the check runs it is `text-info` whatever the flag. */
  function TrustStatusClass(checking: bool, trusted: bool): (r: string)
    ensures r == "text-info" <==> checking
    ensures r == "text-success" <==> !checking && trusted
    ensures r == "text-danger" <==> !checking && !trusted
  {
    if checking then "text-info"
    else if trusted then "text-success"
    else "text-danger"
  }

  /** A string value in a truthiness test: `null`, `undefined` and `''` are falsy. */
  predicate TruthyString(s: Option<string>) {
    s.Some? && s.value != ""
  }

  /** `a` is `b` with some entries taken out, the rest kept in order. */
  ghost predicate IsSubsequence<T>(a: seq<T>, b: seq<T>)
    decreases |b|
  {
    a == [] || (b != [] && ((a[0] == b[0] && IsSubsequence(a[1..], b[1..])) || IsSubsequence(a, b[1..])))
  }

  /** `Array.prototype.filter`. */
  function Filter<T(!new)>(p: T -> bool, s: seq<T>): (r: seq<T>)
    ensures |r| <= |s|
    ensures IsSubsequence(r, s)
    ensures forall x :: x in r <==> x in s && p(x)
    ensures forall x :: multiset(r)[x] == if p(x) then multiset(s)[x] else 0
  {
    if s == [] then []
    else
      var rest := Filter(p, s[1..]);
      assert s == [s[0]] + s[1..];
      if p(s[0]) then
        assert ([s[0]] + rest)[1..] == rest;
        [s[0]] + rest
      else
        rest
  }

  /** Filtering with a predicate every entry satisfies changes nothing. */
  lemma {:induction false} FilterKeepsAll<T(!new)>(p: T -> bool, s: seq<T>)
    requires forall i :: 0 <= i < |s| ==> p(s[i])
    ensures Filter(p, s) == s
  {
    if s != [] {
      FilterKeepsAll(p, s[1..]);
    }
  }

  /** Filtering depends only on which entries the predicate keeps. */
  lemma {:induction false} FilterExtensional<T(!new)>(p: T -> bool, q: T -> bool, s: seq<T>)
    requires forall i :: 0 <= i < |s| ==> p(s[i]) == q(s[i])
    ensures Filter(p, s) == Filter(q, s)
  {
    if s != [] {
      FilterExtensional(p, q, s[1..]);
    }
  }

  /** Filtering by `p` and then by `q` is filtering once by a predicate `r`
      that holds where both do. */
  lemma {:induction false} FilterFilter<T(!new)>(p: T -> bool, q: T -> bool, r: T -> bool, s: seq<T>)
    requires forall i :: 0 <= i < |s| ==> r(s[i]) == (p(s[i]) && q(s[i]))
    ensures Filter(q, Filter(p, s)) == Filter(r, s)
  {
    if s != [] {
      FilterFilter(p, q, r, s[1..]);
    }
  }

  /** `Array.prototype.findIndex`: the first index whose entry satisfies `p`,
      or -1. */
  function FindIndex<T>(p: T -> bool, s: seq<T>): (r: int)
    ensures -1 <= r < |s|
    ensures r >= 0 ==> p(s[r]) && forall j :: 0 <= j < r ==> !p(s[j])
    ensures r == -1 <==> forall j :: 0 <= j < |s| ==> !p(s[j])
  {
    if s == [] then -1
    else if p(s[0]) then 0
    else
      var k := FindIndex(p, s[1..]);
      if k == -1 then -1 else k + 1
  }

  /** `Array.prototype.find`: the first entry satisfying `p`, or `undefined`. */
  function Find<T(!new)>(p: T -> bool, s: seq<T>): (r: Option<T>)
    ensures r.Some? ==> r.value in s && p(r.value)
    ensures r.None? <==> forall x :: x in s ==> !p(x)
  {
    if s == [] then None
    else if p(s[0]) then Some(s[0])
    else Find(p, s[1..])
  }

  /** `find` yields the entry at the index `findIndex` reports. */
  lemma {:induction false} FindAtFindIndex<T(!new)>(p: T -> bool, s: seq<T>)
    ensures Find(p, s) == if FindIndex(p, s) == -1 then None else Some(s[FindIndex(p, s)])
  {
    if s != [] && !p(s[0]) {
      FindAtFindIndex(p, s[1..]);
    }
  }
}
