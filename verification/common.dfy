/** Small value-level helpers shared by every module: optional values,
    results, the "first row that matches" query and Python's slice
    semantics on sequences. */
module Common {

  datatype Option<T> = None | Some(value: T)

  datatype Result<T, E> = Ok(value: T) | Err(error: E)

  /** An HTTP error response: its status code and its detail text. */
  datatype HttpError = HttpError(status: int, detail: string)

  /** The answer of an exception an endpoint does not handle. */
  const ServerError := HttpError(500, "Internal Server Error")

  /** Index of the first element satisfying `p`, as a query's `.first()`
      over a table kept in storage order. */
  function FindFirst<T>(s: seq<T>, p: T -> bool): (r: Option<nat>)
    ensures r.None? <==> forall i :: 0 <= i < |s| ==> !p(s[i])
    ensures r.Some? ==> r.value < |s| && p(s[r.value])
    ensures r.Some? ==> forall i :: 0 <= i < r.value ==> !p(s[i])
  {
    if |s| == 0 then None
    else if p(s[0]) then Some(0)
    else match FindFirst(s[1..], p)
      case None => None
      case Some(k) => Some(k + 1)
  }

  /** Python's normalisation of one slice bound against a length `n`:
      negative bounds count from the end, and every bound is clamped
      into `0..n`. */
  function SliceBound(i: int, n: nat): (b: nat)
    ensures b <= n
  {
    if i < 0 then (if i + n < 0 then 0 else i + n)
    else if i > n then n
    else i
  }

  /** `s[lo:hi]` with Python's semantics for any integer bounds. */
  function PySlice<T>(s: seq<T>, lo: int, hi: int): seq<T>
  {
    var a := SliceBound(lo, |s|);
    var b := SliceBound(hi, |s|);
    if a <= b then s[a..b] else []
  }

  function Min(a: int, b: int): int { if a <= b then a else b }

  function Max(a: int, b: int): int { if a >= b then a else b }

  /** For non-negative bounds a slice is the contiguous, order-preserving
      window of `s` that starts at `lo`, cut short by the end of `s`. */
  lemma PySliceWindow<T>(s: seq<T>, lo: int, hi: int)
    requires 0 <= lo <= hi
    ensures |PySlice(s, lo, hi)| == Min(hi - lo, Max(0, |s| - lo))
    ensures forall k :: 0 <= k < |PySlice(s, lo, hi)| ==> PySlice(s, lo, hi)[k] == s[lo + k]
  {
    var r := PySlice(s, lo, hi);
    if lo >= |s| {
      assert SliceBound(lo, |s|) == |s| && SliceBound(hi, |s|) == |s|;
      assert r == [];
    } else {
      assert SliceBound(lo, |s|) == lo;
      if hi <= |s| {
        assert r == s[lo..hi];
      } else {
        assert r == s[lo..];
      }
    }
  }

  /** Two adjacent slices join into the slice that spans both. */
  lemma PySliceJoin<T>(s: seq<T>, lo: int, mid: int, hi: int)
    requires 0 <= lo <= mid <= hi
    ensures PySlice(s, lo, mid) + PySlice(s, mid, hi) == PySlice(s, lo, hi)
  {
    var n := |s|;
    assert SliceBound(lo, n) == Min(lo, n) && SliceBound(mid, n) == Min(mid, n) && SliceBound(hi, n) == Min(hi, n);
    var a, b, c := Min(lo, n), Min(mid, n), Min(hi, n);
    assert s[a..b] + s[b..c] == s[a..c];
  }

  /** Deleting the element at `i` (a row removed from a table) shifts the
      later elements down by one and keeps every other element. */
  lemma RemoveAt<T>(s: seq<T>, i: nat)
    requires i < |s|
    ensures var r := s[..i] + s[i + 1..];
      |r| == |s| - 1 &&
      (forall j :: 0 <= j < |r| ==> r[j] == if j < i then s[j] else s[j + 1]) &&
      (forall j :: 0 <= j < |s| && j != i ==> s[j] in r)
  {
    var r := s[..i] + s[i + 1..];
    forall j | 0 <= j < |s| && j != i
      ensures s[j] in r
    {
      if j < i {
        assert r[j] == s[j];
      } else {
        assert r[j - 1] == s[j];
      }
    }
  }
}
