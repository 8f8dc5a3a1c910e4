/**
 CPython's semantics for the three list operations the registry relies on:
 subscripting `a[i]`, `a.pop(i)`, and the step-1 slice `a[start:end]`
 together with `del a[start:end]`.
 */
module PyList {
  import opened Wrappers

  /** The exceptions these list operations raise. */
  datatype ListError = IndexError | OverflowError

  /** Bounds of `Py_ssize_t` on a 64-bit CPython; `pop` converts its argument to it. */
  const SsizeMin: int := -0x8000_0000_0000_0000
  const SsizeMax: int := 0x7fff_ffff_ffff_ffff

  /** A negative index or slice bound counts from the end: Python adds the length. */
  function Offset(i: int, n: nat): int
  {
    if i < 0 then i + n else i
  }

  /** The position `a[i]` denotes in a list of length `n`, if any. */
  function Position(i: int, n: nat): (k: Option<nat>)
    ensures k.Some? <==> -(n as int) <= i < n
    ensures k.Some? ==> k.value < n && k.value == i % n
  {
    if -(n as int) <= i < n then Some(Offset(i, n)) else None
  }

  /** `a[i]`: defined exactly for `-|a| <= i < |a|`, otherwise IndexError. */
  function Index<T>(a: seq<T>, i: int): (r: Result<T, ListError>)
    ensures r.Ok? <==> -|a| <= i < |a|
    ensures r.Ok? ==> r.value == a[i % |a|]
    ensures r.Err? ==> r.error == IndexError
  {
    match Position(i, |a|)
    case Some(k) => Ok(a[k])
    case None => Err(IndexError)
  }

  /** What `a.pop(i)` returns together with the list it leaves behind. */
  datatype Popped<T> = Popped(item: T, rest: seq<T>)

  /**
   `a.pop(i)`. The argument is first converted to `Py_ssize_t` (OverflowError
   outside its range); then an empty list or an index outside `-|a| <= i < |a|`
   raises IndexError; otherwise the element is removed and returned.
   */
  function Pop<T>(a: seq<T>, i: int): (r: Result<Popped<T>, ListError>)
    ensures !(SsizeMin <= i <= SsizeMax) ==> r == Err(OverflowError)
    ensures SsizeMin <= i <= SsizeMax ==> (r.Ok? <==> -|a| <= i < |a|)
    ensures SsizeMin <= i <= SsizeMax && r.Err? ==> r.error == IndexError
    ensures r.Ok? ==> r.value.item == a[i % |a|]
    ensures r.Ok? ==> var k := i % |a|; r.value.rest == a[..k] + a[k+1..]
    ensures r.Ok? ==> |r.value.rest| == |a| - 1
  {
    if !(SsizeMin <= i <= SsizeMax) then Err(OverflowError)
    else if |a| == 0 then Err(IndexError)
    else match Position(i, |a|)
      case Some(k) => Ok(Popped(a[k], a[..k] + a[k+1..]))
      case None => Err(IndexError)
  }

  /** One slice bound after normalisation: negative bounds are offset by `n`, then clamped to `[0, n]`. */
  function Bound(i: int, n: nat): (b: nat)
    ensures b <= n
    ensures Offset(i, n) <= 0 ==> b == 0
    ensures Offset(i, n) >= n ==> b == n
    ensures 0 <= Offset(i, n) <= n ==> b == Offset(i, n)
  {
    var j := Offset(i, n);
    if j < 0 then 0 else if j > n then n else j
  }

  /** The half-open range `[lo, hi)` a step-1 slice `[start:end]` selects; empty when start is not below end. */
  datatype Range = Range(lo: nat, hi: nat)

  function SliceRange(start: int, end: int, n: nat): (r: Range)
    ensures r.lo <= r.hi <= n
    ensures Bound(start, n) < Bound(end, n) ==> r == Range(Bound(start, n), Bound(end, n))
    ensures Bound(end, n) <= Bound(start, n) ==> r.lo == r.hi
  {
    var lo := Bound(start, n);
    Range(lo, Max(lo, Bound(end, n)))
  }

  /** `a[start:end]`: never raises. */
  function Slice<T>(a: seq<T>, start: int, end: int): (r: seq<T>)
    ensures var g := SliceRange(start, end, |a|); |r| == g.hi - g.lo
    ensures var g := SliceRange(start, end, |a|); forall j :: 0 <= j < |r| ==> r[j] == a[g.lo + j]
  {
    var g := SliceRange(start, end, |a|);
    a[g.lo..g.hi]
  }

  /** The list `del a[start:end]` leaves: never raises. */
  function DelSlice<T>(a: seq<T>, start: int, end: int): (r: seq<T>)
    ensures |r| == |a| - |Slice(a, start, end)|
  {
    var g := SliceRange(start, end, |a|);
    a[..g.lo] + a[g.hi..]
  }

  // ---------------------------------------------------------------------
  // A reference definition: the elements of a list whose positions satisfy
  // a predicate, in order. The operations above are characterised by it.
  // ---------------------------------------------------------------------

  function Pick<T>(a: seq<T>, sel: int -> bool): seq<T>
    decreases |a|
  {
    if |a| == 0 then []
    else Pick(a[..|a|-1], sel) + (if sel(|a|-1) then [a[|a|-1]] else [])
  }

  /** A slice of a prefix is the same slice of the whole list. */
  lemma PrefixSlice<T>(a: seq<T>, m: nat, x: nat, y: nat)
    requires x <= y <= m <= |a|
    ensures a[..m][x..y] == a[x..y]
  {
    assert forall j :: 0 <= j < y - x ==> a[..m][x..y][j] == a[x + j] == a[x..y][j];
  }

  /** Picking the positions of an interval `[lo, hi)` yields the (truncated) contiguous slice. */
  lemma {:induction false} PickInterval<T>(a: seq<T>, sel: int -> bool, lo: nat, hi: nat)
    requires lo <= hi
    requires forall k :: 0 <= k < |a| ==> (sel(k) <==> lo <= k < hi)
    ensures Pick(a, sel) == a[Min(lo, |a|)..Min(hi, |a|)]
    decreases |a|
  {
    if |a| > 0 {
      var m := |a| - 1;
      var p := a[..m];
      forall k | 0 <= k < |p| ensures sel(k) <==> lo <= k < hi {
        assert sel(k) <==> lo <= k < hi;
      }
      PickInterval(p, sel, lo, hi);
      PrefixSlice(a, m, Min(lo, m), Min(hi, m));
      if lo <= m < hi {
        assert Min(lo, m) == lo && Min(hi, m) == m;
        assert Min(lo, |a|) == lo && Min(hi, |a|) == |a|;
        assert a[m..|a|] == [a[m]];
        assert a[lo..|a|] == a[lo..m] + a[m..|a|];
      } else {
        assert a[Min(lo, m)..Min(hi, m)] == a[Min(lo, |a|)..Min(hi, |a|)];
      }
    }
  }

  /** Picking every position outside `[lo, hi)` yields what remains when that slice is cut out. */
  lemma {:induction false} PickOutside<T>(a: seq<T>, sel: int -> bool, lo: nat, hi: nat)
    requires lo <= hi
    requires forall k :: 0 <= k < |a| ==> (sel(k) <==> !(lo <= k < hi))
    ensures Pick(a, sel) == a[..Min(lo, |a|)] + a[Min(hi, |a|)..]
    decreases |a|
  {
    if |a| > 0 {
      var m := |a| - 1;
      var p := a[..m];
      forall k | 0 <= k < |p| ensures sel(k) <==> !(lo <= k < hi) {
        assert sel(k) <==> !(lo <= k < hi);
      }
      PickOutside(p, sel, lo, hi);
      assert Pick(p, sel) == p[..Min(lo, m)] + p[Min(hi, m)..];
      if lo <= m < hi {
        assert p[..Min(lo, m)] + p[Min(hi, m)..] == a[..Min(lo, |a|)] + a[Min(hi, |a|)..];
      } else if m < lo {
        assert p[..Min(lo, m)] + p[Min(hi, m)..] + [a[m]] == a[..Min(lo, |a|)] + a[Min(hi, |a|)..];
      } else {
        assert p[..Min(lo, m)] + p[Min(hi, m)..] + [a[m]] == a[..Min(lo, |a|)] + a[Min(hi, |a|)..];
      }
    }
  }

  // ---------------------------------------------------------------------
  // Properties of the list operations.
  // ---------------------------------------------------------------------

  /** A negative index refers to the same element as the index `n` higher. */
  lemma IndexWraps<T>(a: seq<T>, i: int)
    requires 0 <= i < |a|
    ensures Index(a, i - |a|) == Index(a, i)
    ensures Index(a, i).Ok?
  {
  }

  /** Appending to a list leaves the entries at non-negative indices where they were. */
  lemma IndexPrefix<T>(a: seq<T>, b: seq<T>, i: int)
    requires 0 <= i < |a|
    ensures Index(a + b, i) == Index(a, i)
  {
    SmallMod(i, |a|);
    SmallMod(i, |a + b|);
    assert (a + b)[i] == a[i];
  }

  lemma SmallMod(i: int, n: int)
    requires 0 <= i < n
    ensures i % n == i
  {
  }

  /** `a[start:end]` holds exactly the elements whose position `k` satisfies
      `Offset(start) <= k < Offset(end)`, in order: clamping changes nothing
      about which positions are selected. */
  lemma SliceSelects<T>(a: seq<T>, start: int, end: int)
    ensures Slice(a, start, end) == Pick(a, k => Offset(start, |a|) <= k < Offset(end, |a|))
  {
    var n := |a|;
    var g := SliceRange(start, end, n);
    var sel := k => Offset(start, n) <= k < Offset(end, n);
    forall k | 0 <= k < n ensures sel(k) <==> g.lo <= k < g.hi {
    }
    PickInterval(a, sel, g.lo, g.hi);
  }

  /** `del a[start:end]` keeps exactly the elements the slice does not select, in order. */
  lemma DelSliceKeeps<T>(a: seq<T>, start: int, end: int)
    ensures DelSlice(a, start, end) == Pick(a, k => !(Offset(start, |a|) <= k < Offset(end, |a|)))
  {
    var n := |a|;
    var g := SliceRange(start, end, n);
    var sel := k => !(Offset(start, n) <= k < Offset(end, n));
    forall k | 0 <= k < n ensures sel(k) <==> !(g.lo <= k < g.hi) {
    }
    PickOutside(a, sel, g.lo, g.hi);
  }

  /** Putting the slice back where it was cut out restores the list. */
  lemma SliceRestores<T>(a: seq<T>, start: int, end: int)
    ensures var g := SliceRange(start, end, |a|);
      var d := DelSlice(a, start, end);
      d[..g.lo] + Slice(a, start, end) + d[g.lo..] == a
  {
    var g := SliceRange(start, end, |a|);
    var d := DelSlice(a, start, end);
    assert d[..g.lo] == a[..g.lo];
    assert d[g.lo..] == a[g.hi..];
    assert a[..g.lo] + a[g.lo..g.hi] + a[g.hi..] == a;
  }

  /** A slice whose normalised bounds do not increase is empty and its `del` is a no-op;
      in particular `a[k:k]` for every `k`. */
  lemma EmptySlice<T>(a: seq<T>, start: int, end: int)
    requires Bound(end, |a|) <= Bound(start, |a|)
    ensures Slice(a, start, end) == []
    ensures DelSlice(a, start, end) == a
  {
    var g := SliceRange(start, end, |a|);
    assert a[..g.lo] + a[g.hi..] == a;
  }

  /** `pop` keeps exactly the elements at other positions, in order. */
  lemma PopKeeps<T>(a: seq<T>, i: int)
    requires Pop(a, i).Ok?
    ensures Pop(a, i).value.rest == Pick(a, j => j != i % |a|)
  {
    var k := i % |a|;
    var sel := j => j != k;
    forall j | 0 <= j < |a| ensures sel(j) <==> !(k <= j < k + 1) {
    }
    PickOutside(a, sel, k, k + 1);
  }

  /** Inserting the popped item back at its position restores the list. */
  lemma PopRestores<T>(a: seq<T>, i: int)
    requires Pop(a, i).Ok?
    ensures var k := i % |a|; var p := Pop(a, i).value;
      p.rest[..k] + [p.item] + p.rest[k..] == a
  {
    var k := i % |a|;
    var p := Pop(a, i).value;
    assert p.rest[..k] == a[..k];
    assert p.rest[k..] == a[k+1..];
    assert a[..k] + [a[k]] + a[k+1..] == a;
  }

  /** Within the `Py_ssize_t` range `pop` and subscripting accept the same indices
      and agree on the element. */
  lemma PopAgreesWithIndex<T>(a: seq<T>, i: int)
    requires SsizeMin <= i <= SsizeMax
    ensures Pop(a, i).Ok? <==> Index(a, i).Ok?
    ensures Pop(a, i).Ok? ==> Pop(a, i).value.item == Index(a, i).value
  {
  }

  /** After popping position `k`, indices below `k` denote the same elements as
      before and indices from `k` on denote the element one further along. */
  lemma PopShifts<T>(a: seq<T>, i: int, j: int)
    requires Pop(a, i).Ok?
    ensures var k := i % |a|; var rest := Pop(a, i).value.rest;
      && (0 <= j < k ==> Index(rest, j) == Index(a, j))
      && (k <= j < |a| - 1 ==> Index(rest, j) == Index(a, j + 1))
      && (j == |a| - 1 ==> Index(rest, j) == Err(IndexError))
  {
  }
}
