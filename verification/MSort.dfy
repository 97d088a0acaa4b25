/** The list merge sort `msort`.  A linked list is its sequence of elements; `set` holds the
    sorted runs, run i having 2^i elements. */
module MSort {

  const LISTSIZE: nat := 30

  // ---------------------------------------------------------------- specification

  /** A comparison function as the callers of `msort` supply: a total preorder. */
  ghost predicate Comparison<T(!new)>(cmp: (T, T) -> int) {
    Total(cmp) && Transitive(cmp)
  }

  ghost predicate Total<T(!new)>(cmp: (T, T) -> int) {
    forall x, y :: cmp(x, y) <= 0 || cmp(y, x) <= 0
  }

  ghost predicate Transitive<T(!new)>(cmp: (T, T) -> int) {
    forall x, y, z :: cmp(x, y) <= 0 && cmp(y, z) <= 0 ==> cmp(x, z) <= 0
  }

  ghost predicate Sorted<T>(cmp: (T, T) -> int, s: seq<T>) {
    forall i, j | 0 <= i < j < |s| :: cmp(s[i], s[j]) <= 0
  }

  /** Sortedness between neighbours, which is what merging maintains. */
  ghost predicate Ascending<T>(cmp: (T, T) -> int, s: seq<T>) {
    forall i | 0 < i < |s| :: cmp(s[i - 1], s[i]) <= 0
  }

  lemma {:induction false} AscendingIsSorted<T(!new)>(cmp: (T, T) -> int, s: seq<T>)
    requires Comparison(cmp) && Ascending(cmp, s)
    ensures Sorted(cmp, s)
  {
    if |s| > 1 {
      var t, n := s[..|s| - 1], |s| - 1;
      AscendingIsSorted(cmp, t);
      forall i, j | 0 <= i < j < |s|
        ensures cmp(s[i], s[j]) <= 0
      {
        if j < n {
          assert cmp(t[i], t[j]) <= 0;
        } else if i < n - 1 {
          assert cmp(t[i], t[n - 1]) <= 0 && cmp(s[n - 1], s[n]) <= 0;
        }
      }
    }
  }

  function Pow2(n: nat): (p: nat)
    ensures p > 0
  {
    if n == 0 then 1 else 2 * Pow2(n - 1)
  }

  /** Everything held in the bins. */
  ghost function Content<T>(bins: seq<seq<T>>): multiset<T> {
    if bins == [] then multiset{} else Content(bins[..|bins| - 1]) + multiset(bins[|bins| - 1])
  }

  ghost predicate Bins<T(!new)>(cmp: (T, T) -> int, bins: seq<seq<T>>) {
    forall i | 0 <= i < |bins| :: (bins[i] == [] || |bins[i]| == Pow2(i)) && Ascending(cmp, bins[i])
  }

  // ---------------------------------------------------------------- bins as a binary counter

  lemma {:induction false} ContentUpdate<T>(bins: seq<seq<T>>, i: nat, run: seq<T>)
    requires i < |bins|
    ensures Content(bins[i := run]) + multiset(bins[i]) == Content(bins) + multiset(run)
  {
    var n := |bins| - 1;
    if i == n {
      assert bins[i := run][..n] == bins[..n];
    } else {
      ContentUpdate(bins[..n], i, run);
      assert bins[i := run][..n] == bins[..n][i := run];
      var low, low' := Content(bins[..n]), Content(bins[..n][i := run]);
      assert Content(bins) == low + multiset(bins[n]);
      assert Content(bins[i := run]) == low' + multiset(bins[n]);
      assert bins[..n][i] == bins[i];
      Exchange(low, low', multiset(bins[i]), multiset(run), multiset(bins[n]));
    }
  }

  lemma Exchange<T>(x: multiset<T>, y: multiset<T>, a: multiset<T>, b: multiset<T>, c: multiset<T>)
    requires y + a == x + b
    ensures (y + c) + a == (x + c) + b
  {
    assert (y + c) + a == (y + a) + c;
  }

  lemma {:induction false} ContentBound<T(!new)>(cmp: (T, T) -> int, bins: seq<seq<T>>)
    requires Bins(cmp, bins)
    ensures |Content(bins)| < Pow2(|bins|)
  {
    if bins != [] {
      ContentBound(cmp, bins[..|bins| - 1]);
    }
  }

  /** Bin i is full exactly when bit i of the number of elements held is set. */
  lemma {:induction false} BinsAreBits<T(!new)>(cmp: (T, T) -> int, bins: seq<seq<T>>, i: nat)
    requires Bins(cmp, bins) && i < |bins|
    ensures bins[i] != [] <==> |Content(bins)| / Pow2(i) % 2 == 1
  {
    var n := |bins| - 1;
    var low, c, p := bins[..n], |Content(bins[..n])|, Pow2(n);
    ContentBound(cmp, low);
    assert |Content(bins)| == c + |bins[n]| by {
      assert |multiset(bins[n])| == |bins[n]|;
    }
    if i == n {
      var q := if bins[n] == [] then 0 else 1;
      DivSmall(c, p, q);
      assert c + q * p == c + |bins[n]|;
    } else {
      BinsAreBits(cmp, low, i);
      assert low[i] == bins[i];
      if bins[n] != [] {
        HigherBit(c, i, n);
      }
    }
  }

  lemma DivSmall(c: nat, p: nat, q: nat)
    requires c < p
    ensures (c + q * p) / p == q
  {
    var x := (c + q * p) / p;
    assert x * p <= c + q * p < x * p + p;
    MulMonotone(x + 1, q, p);
    MulMonotone(q + 1, x, p);
  }

  lemma MulMonotone(a: nat, b: nat, p: nat)
    ensures a <= b ==> a * p <= b * p
  {
  }

  lemma HigherBit(c: nat, i: nat, n: nat)
    requires i < n
    ensures (c + Pow2(n)) / Pow2(i) % 2 == c / Pow2(i) % 2
  {
    var k := PowSplit(i, n);
    AddEvenMultiple(c, Pow2(i), k, Pow2(n));
  }

  lemma AddEvenMultiple(c: nat, p: nat, k: nat, q: nat)
    requires p > 0 && q == (2 * k) * p
    ensures (c + q) / p % 2 == c / p % 2
  {
    AddMultiple(c, p, 2 * k);
    Even(c / p, k);
  }

  lemma Even(x: nat, k: nat)
    ensures (x + 2 * k) % 2 == x % 2
  {
  }

  lemma AddMultiple(c: nat, p: nat, m: nat)
    requires p > 0
    ensures (c + m * p) / p == c / p + m
  {
    var x := c / p;
    assert c % p + (x + m) * p == c + m * p;
    DivSmall(c % p, p, x + m);
  }

  lemma {:induction false} PowSplit(i: nat, n: nat) returns (k: nat)
    requires i < n
    ensures Pow2(n) == (2 * k) * Pow2(i)
  {
    if i + 1 == n {
      k := 1;
    } else {
      var h := PowSplit(i, n - 1);
      k := 2 * h;
    }
  }

  // ---------------------------------------------------------------- the algorithm

  /** `ptr` is the end of the merged list `head`; a and b are what is left of the arguments. */
  method Merge<T(==, !new)>(a0: seq<T>, b0: seq<T>, cmp: (T, T) -> int) returns (head: seq<T>)
    requires Total(cmp) && Ascending(cmp, a0) && Ascending(cmp, b0)
    ensures Ascending(cmp, head)
    ensures multiset(head) == multiset(a0) + multiset(b0)
  {
    var a, b := a0, b0;
    head := [];
    while a != [] && b != []
      invariant Ascending(cmp, head + a) && Ascending(cmp, head + b)
      invariant multiset(head) + multiset(a) + multiset(b) == multiset(a0) + multiset(b0)
      decreases |a| + |b|
    {
      if cmp(a[0], b[0]) <= 0 {
        TakeFirst(cmp, head, a, b);
        head := head + [a[0]];
        a := a[1..];
      } else {
        TakeFirst(cmp, head, b, a);
        head := head + [b[0]];
        b := b[1..];
      }
    }
    head := head + (if a != [] then a else b);
  }

  lemma TakeFirst<T>(cmp: (T, T) -> int, head: seq<T>, a: seq<T>, b: seq<T>)
    requires a != [] && b != [] && cmp(a[0], b[0]) <= 0
    requires Ascending(cmp, head + a) && Ascending(cmp, head + b)
    ensures Ascending(cmp, head + [a[0]] + a[1..]) && Ascending(cmp, head + [a[0]] + b)
    ensures multiset(head + [a[0]]) + multiset(a[1..]) + multiset(b) == multiset(head) + multiset(a) + multiset(b)
    ensures multiset(head + [a[0]]) + multiset(b) + multiset(a[1..]) == multiset(head) + multiset(b) + multiset(a)
  {
    assert head + [a[0]] + a[1..] == head + a;
    assert a == [a[0]] + a[1..];
    var s := head + [a[0]] + b;
    forall i | 0 < i < |s|
      ensures cmp(s[i - 1], s[i]) <= 0
    {
      if i <= |head| {
        assert s[i - 1] == (head + a)[i - 1] && s[i] == (head + a)[i];
      } else if i > |head| + 1 {
        assert s[i - 1] == (head + b)[i - 2] && s[i] == (head + b)[i - 1];
      }
    }
  }

  /** The sorted list is a permutation of the input exactly when the input has fewer than 2^30
      elements; a longer list overwrites the run in the last bin and loses elements. */
  method Msort<T(==, !new)>(list: seq<T>, cmp: (T, T) -> int) returns (ep: seq<T>)
    requires Comparison(cmp)
    ensures Sorted(cmp, ep)
    ensures |list| < Pow2(LISTSIZE) ==> multiset(ep) == multiset(list)
    ensures |ep| == |list| <==> |list| < 0x4000_0000
  {
    hide *;
    var set_ := new seq<T>[LISTSIZE];
    for i := 0 to LISTSIZE
      invariant forall k | 0 <= k < i :: set_[k] == []
    {
      set_[i] := [];
    }
    EmptyContent(cmp, set_[..]);
    TotalOrder(cmp);
    for n := 0 to |list|
      invariant Bins(cmp, set_[..])
      invariant n < Pow2(LISTSIZE) ==> Content(set_[..]) == multiset(list[..n])
    {
      assert list[..n + 1] == list[..n] + [list[n]];
      Sizes(list[..n], multiset(list[..n]));
      Carry(set_, list[n], n, cmp);
    }
    assert list[..|list|] == list;
    ep := Collect(set_, cmp);
    AscendingIsSorted(cmp, ep);
    ContentBound(cmp, set_[..]);
    Sizes(ep, Content(set_[..]));
    Sizes(list, multiset(list));
    ListSize();
  }

  lemma ListSize()
    ensures Pow2(LISTSIZE) == 0x4000_0000
  {
    assert Pow2(5) == 32 && Pow2(10) == 0x400;
    assert Pow2(15) == 0x8000 && Pow2(20) == 0x10_0000;
    assert Pow2(25) == 0x200_0000 && Pow2(30) == 0x4000_0000;
  }

  lemma TotalOrder<T(!new)>(cmp: (T, T) -> int)
    requires Comparison(cmp)
    ensures Total(cmp)
  {
  }

  lemma Sizes<T>(s: seq<T>, m: multiset<T>)
    requires multiset(s) == m
    ensures |s| == |m|
  {
  }

  lemma {:induction false} EmptyContent<T(!new)>(cmp: (T, T) -> int, bins: seq<seq<T>>)
    requires forall i | 0 <= i < |bins| :: bins[i] == []
    ensures Content(bins) == multiset{} && Bins(cmp, bins)
  {
    if bins != [] {
      EmptyContent(cmp, bins[..|bins| - 1]);
    }
  }

  /** One more element: merge it with the full bins up to the first empty one. */
  method Carry<T(==, !new)>(set_: array<seq<T>>, x: T, ghost n: nat, cmp: (T, T) -> int)
    requires set_.Length == LISTSIZE && Total(cmp) && Bins(cmp, set_[..])
    requires n < Pow2(LISTSIZE) ==> |Content(set_[..])| == n
    modifies set_
    ensures Bins(cmp, set_[..])
    ensures n + 1 < Pow2(LISTSIZE) ==> Content(set_[..]) == old(Content(set_[..])) + multiset{x}
  {
    hide *;
    var ep := [x];
    var i := 0;
    ghost var all := Content(set_[..]) + multiset{x};
    OneHeld(cmp, set_[..], x);
    while i < LISTSIZE - 1 && |set_[i]| != 0
      invariant 0 <= i < LISTSIZE
      invariant |ep| == Pow2(i) && Ascending(cmp, ep)
      invariant Bins(cmp, set_[..]) && Holding(set_[..], ep, all)
    {
      ep := MergeBin(set_, i, ep, cmp, all);
      i := i + 1;
    }
    PlaceStep(cmp, set_[..], i, ep, all);
    ghost var was := set_[..];
    set_[i] := ep;
    assert set_[..] == was[i := ep];
  }

  lemma OneHeld<T(!new)>(cmp: (T, T) -> int, bins: seq<seq<T>>, x: T)
    ensures 0 < LISTSIZE && |[x]| == Pow2(0) && Ascending(cmp, [x]) && Holding(bins, [x], Content(bins) + multiset{x})
  {
  }

  /** A full bin joins the run being carried. */
  method MergeBin<T(==, !new)>(set_: array<seq<T>>, i: nat, run: seq<T>, cmp: (T, T) -> int, ghost all: multiset<T>)
    returns (merged: seq<T>)
    requires set_.Length == LISTSIZE && i < LISTSIZE - 1 && |set_[i]| != 0 && Total(cmp)
    requires |run| == Pow2(i) && Ascending(cmp, run) && Bins(cmp, set_[..]) && Holding(set_[..], run, all)
    modifies set_
    ensures |merged| == Pow2(i + 1) && Ascending(cmp, merged)
    ensures Bins(cmp, set_[..]) && Holding(set_[..], merged, all)
  {
    ghost var was := set_[..];
    assert was[i] == set_[i];
    BinAscending(cmp, was, i);
    hide Total, Ascending, Bins, Holding;
    merged := Merge(run, set_[i], cmp);
    CarryStep(cmp, was, i, run, merged, all);
    set_[i] := [];
    assert set_[..] == was[i := []];
  }

  /** The bins and the run being carried make up everything. */
  ghost predicate Holding<T>(bins: seq<seq<T>>, ep: seq<T>, all: multiset<T>) {
    Content(bins) + multiset(ep) == all
  }

  lemma BinAscending<T(!new)>(cmp: (T, T) -> int, bins: seq<seq<T>>, i: nat)
    requires Bins(cmp, bins) && i < |bins|
    ensures Ascending(cmp, bins[i])
  {
  }

  lemma CarryStep<T(!new)>(cmp: (T, T) -> int, bins: seq<seq<T>>, i: nat, ep: seq<T>, merged: seq<T>, all: multiset<T>)
    requires i < |bins| && bins[i] != [] && Bins(cmp, bins) && |ep| == Pow2(i)
    requires multiset(merged) == multiset(ep) + multiset(bins[i]) && Holding(bins, ep, all)
    ensures Bins(cmp, bins[i := []]) && |merged| == Pow2(i + 1) && Holding(bins[i := []], merged, all)
  {
    assert |multiset(merged)| == |merged| && |multiset(ep)| == |ep| && |multiset(bins[i])| == |bins[i]|;
    ContentUpdate(bins, i, []);
    assert Content(bins[i := []]) + multiset(bins[i]) == Content(bins);
  }

  /** The last bin is only overwritten by the element that makes 2^30. */
  lemma PlaceStep<T(!new)>(cmp: (T, T) -> int, bins: seq<seq<T>>, i: nat, ep: seq<T>, all: multiset<T>)
    requires |bins| == LISTSIZE && Bins(cmp, bins) && Holding(bins, ep, all)
    requires i < LISTSIZE && |ep| == Pow2(i) && Ascending(cmp, ep)
    requires i < LISTSIZE - 1 ==> bins[i] == []
    ensures Bins(cmp, bins[i := ep])
    ensures |all| < Pow2(LISTSIZE) ==> Content(bins[i := ep]) == all
  {
    ContentUpdate(bins, i, ep);
    hide Ascending;
    if bins[i] != [] {
      assert Content(bins) == Content(bins[..i]) + multiset(bins[i]);
      assert |multiset(bins[i])| == |bins[i]| && |multiset(ep)| == |ep|;
      assert Pow2(LISTSIZE) == 2 * Pow2(LISTSIZE - 1);
    }
  }

  method Collect<T(==, !new)>(set_: array<seq<T>>, cmp: (T, T) -> int) returns (ep: seq<T>)
    requires set_.Length == LISTSIZE && Total(cmp) && Bins(cmp, set_[..])
    ensures Ascending(cmp, ep)
    ensures multiset(ep) == Content(set_[..])
  {
    hide Total;
    ep := [];
    for i := 0 to LISTSIZE
      invariant Ascending(cmp, ep)
      invariant multiset(ep) == Content(set_[..i])
    {
      assert Ascending(cmp, set_[..][i]);
      assert set_[..i + 1][..i] == set_[..i];
      if set_[i] != [] {
        ep := Merge(set_[i], ep, cmp);
      }
    }
    assert set_[..LISTSIZE] == set_[..];
  }

  /** The `qsort` of the C library: some sort, of arrays of any length. */
  method Qsort<T(==, !new)>(a: seq<T>, cmp: (T, T) -> int) returns (sorted: seq<T>)
    requires Comparison(cmp)
    ensures Sorted(cmp, sorted)
    ensures multiset(sorted) == multiset(a)
  {
    hide Total, Transitive;
    sorted := [];
    for i := 0 to |a|
      invariant Ascending(cmp, sorted)
      invariant multiset(sorted) == multiset(a[..i])
    {
      assert a[..i + 1] == a[..i] + [a[i]];
      sorted := Merge(sorted, [a[i]], cmp);
    }
    assert a[..|a|] == a;
    AscendingIsSorted(cmp, sorted);
  }
}
