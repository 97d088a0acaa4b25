/** The list of configurations of a state under construction: `Configlist_closure` and the
    sorting of the list. */
module ConfigLists {
  import opened Grammars
  import opened FirstSets
  import opened Items
  import opened Collections
  import opened MSort

  // ---------------------------------------------------------------- sorting configurations

  lemma ItemOrderCompares(g: Grammar)
    ensures Comparison(ItemOrder(g))
  {
  }

  /** `Configlist_sort` and `Configlist_sortbasis`. */
  method SortItems(g: Grammar, list: seq<Item>) returns (sorted: seq<Item>)
    requires g.Valid() && ValidItems(g, list) && Distinct(list) && |list| < Pow2(LISTSIZE)
    ensures SortedItems(g, sorted) && Elements(sorted) == Elements(list)
  {
    ItemOrderCompares(g);
    sorted := Msort(list, ItemOrder(g));
    SortedIsStrict(g, list, sorted);
  }

  lemma SortedIsStrict(g: Grammar, list: seq<Item>, sorted: seq<Item>)
    requires g.Valid() && ValidItems(g, list) && Distinct(list)
    requires multiset(sorted) == multiset(list) && Sorted(ItemOrder(g), sorted)
    ensures SortedItems(g, sorted) && Elements(sorted) == Elements(list)
  {
    SameElements(sorted, list);
    SameElements(list, sorted);
    DistinctPermutation(list, sorted);
    forall i, j | 0 <= i < j < |sorted|
      ensures ValidItem(g, sorted[i]) && ValidItem(g, sorted[j]) && ItemBefore(g, sorted[i], sorted[j])
    {
      assert sorted[i] in list && sorted[j] in list;
      assert ItemOrder(g)(sorted[i], sorted[j]) <= 0;
      ConfigcmpZero(g, sorted[i], sorted[j]);
    }
    forall i | 0 <= i < |sorted|
      ensures ValidItem(g, sorted[i])
    {
      assert sorted[i] in list;
    }
  }

  lemma SameElements<T>(s: seq<T>, t: seq<T>)
    requires multiset(s) == multiset(t)
    ensures Elements(s) == Elements(t)
    ensures forall x | x in s :: x in t
  {
    forall x
      ensures x in s <==> x in t
    {
      assert x in s <==> x in multiset(s);
      assert x in t <==> x in multiset(t);
    }
  }

  lemma SameLength<T>(s: seq<T>, t: seq<T>)
    requires multiset(s) == multiset(t)
    ensures |s| == |t|
  {
    assert |multiset(s)| == |multiset(t)|;
  }

  lemma DistinctPermutation<T>(s: seq<T>, t: seq<T>)
    requires multiset(s) == multiset(t) && Distinct(s)
    ensures Distinct(t)
  {
    DistinctOnce(s);
    forall i, j | 0 <= i < j < |t|
      ensures t[i] != t[j]
    {
      if t[i] == t[j] { Twice(t, i, j); }
    }
  }

  lemma Twice<T>(t: seq<T>, i: nat, j: nat)
    requires i < j < |t| && t[i] == t[j]
    ensures multiset(t)[t[j]] >= 2
  {
    assert t == t[..j] + [t[j]] + t[j + 1..];
    assert t[i] in t[..j];
  }

  lemma {:induction false} DistinctOnce<T>(s: seq<T>)
    requires Distinct(s)
    ensures forall x :: multiset(s)[x] <= 1
  {
    if s != [] {
      var n := |s| - 1;
      DistinctOnce(s[..n]);
      assert s == s[..n] + [s[n]];
      assert s[n] !in s[..n];
      assert s[n] !in multiset(s[..n]);
    }
  }

  lemma {:induction false} DistinctBound<T>(s: seq<T>, all: set<T>)
    requires Distinct(s) && forall i | 0 <= i < |s| :: s[i] in all
    ensures |s| <= |all|
  {
    if s != [] {
      var n := |s| - 1;
      assert s[n] !in s[..n];
      DistinctBound(s[..n], all - {s[n]});
    }
  }

  // ---------------------------------------------------------------- closure

  /** `done` holds the expansions made so far: a configuration with a rule of the nonterminal
      behind its dot. */
  ghost predicate Fed(g: Grammar, done: set<(Item, nat)>, j: Item, a: nat) {
    exists i :: (i, j.rule) in done && Contributes(g, i, j, a)
  }

  ghost predicate FwsInv(g: Grammar, basis: seq<Item>, init: set<nat>, done: set<(Item, nat)>,
                         fws: map<Item, set<nat>>) {
    forall j, a: nat | j in fws :: a in fws[j] <==> (j in basis && a in init) || Fed(g, done, j, a)
  }

  ghost predicate LinkInv(g: Grammar, done: set<(Item, nat)>, fplp: map<Item, seq<Item>>) {
    forall i, j | i in fplp :: j in fplp[i] <==> (i, j.rule) in done && Propagates(g, i, j)
  }

  ghost predicate DoneIn(g: Grammar, done: set<(Item, nat)>, items: set<Item>) {
    forall i, r | (i, r) in done :: i in items && Item(r, 0) in items && Expands(g, i, Item(r, 0))
  }

  ghost predicate ListOk(g: Grammar, basis: seq<Item>, current: seq<Item>,
                         fws: map<Item, set<nat>>, fplp: map<Item, seq<Item>>) {
    && ValidItems(g, current) && Distinct(current)
    && basis <= current
    && Elements(current) <= Closure(g, Elements(basis))
    && fws.Keys == fplp.Keys == Elements(current)
  }

  ghost predicate ClosureInv(g: Grammar, basis: seq<Item>, init: set<nat>, done: set<(Item, nat)>,
                             current: seq<Item>, fws: map<Item, set<nat>>, fplp: map<Item, seq<Item>>) {
    && ListOk(g, basis, current, fws, fplp)
    && DoneIn(g, done, Elements(current))
    && FwsInv(g, basis, init, done, fws)
    && LinkInv(g, done, fplp)
  }

  /** Everything i asks for, below rule r, has been added. */
  ghost predicate Expanded(g: Grammar, done: set<(Item, nat)>, i: Item, r: nat) {
    forall q | 0 <= q < r && Expands(g, i, Item(q, 0)) :: (i, q) in done
  }

  ghost predicate ContributedBy(g: Grammar, items: seq<Item>, j: Item, a: nat) {
    exists i :: i in items && Contributes(g, i, j, a)
  }

  /** The result of `Configlist_closure`. */
  ghost predicate ClosureOf(g: Grammar, basis: seq<Item>, init: set<nat>, current: seq<Item>,
                            fws: map<Item, set<nat>>, fplp: map<Item, seq<Item>>) {
    && ValidItems(g, current) && Distinct(current)
    && Elements(current) == Closure(g, Elements(basis))
    && fws.Keys == fplp.Keys == Elements(current)
    && (forall j, a: nat | j in fws ::
          a in fws[j] <==> (j in basis && a in init) || ContributedBy(g, current, j, a))
    && (forall i, j | i in fplp :: j in fplp[i] <==> Propagates(g, i, j))
  }

  method ConfiglistClosure(g: Grammar, lambda: seq<bool>, first: seq<set<nat>>, basis: seq<Item>, init: set<nat>)
    returns (current: seq<Item>, fws: map<Item, set<nat>>, fplp: map<Item, seq<Item>>)
    requires g.Valid() && LambdaExact(g, lambda) && FirstExact(g, first)
    requires ValidItems(g, basis) && Distinct(basis)
    ensures ClosureOf(g, basis, init, current, fws, fplp)
  {
    current := basis;
    fws := map i | i in basis :: init;
    fplp := map i | i in basis :: [];
    var n := 0;
    ghost var done: set<(Item, nat)> := {};
    BasisInItems(g, basis);
    while n < |current|
      invariant 0 <= n <= |current|
      invariant ClosureInv(g, basis, init, done, current, fws, fplp)
      invariant forall k | 0 <= k < n :: Expanded(g, done, current[k], |g.rules|)
      decreases AllItems(g) - Elements(current[..n])
    {
      ghost var list := current;
      NotYet(list, n);
      if CanShift(g, current[n]) && g.Nonterminal(SymbolAt(g, current[n])) {
        current, fws, fplp, done := Expand(g, lambda, first, basis, init, done, n, current, fws, fplp);
      } else {
        NoExpansion(g, current[n]);
      }
      n := n + 1;
      assert current[..n] == list[..n];
    }
    Finished(g, basis, init, done, current, fws, fplp);
  }

  lemma BasisInItems(g: Grammar, basis: seq<Item>)
    requires ValidItems(g, basis)
    ensures Elements(basis) <= AllItems(g)
    ensures Elements(basis) <= Closure(g, Elements(basis)) <= AllItems(g)
    ensures Closed(g, Closure(g, Elements(basis)))
  {
    ClosureIsClosed(g, Elements(basis));
  }

  lemma NotYet<T>(s: seq<T>, n: nat)
    requires n < |s| && Distinct(s)
    ensures s[n] !in Elements(s[..n])
    ensures Elements(s[..n + 1]) == Elements(s[..n]) + {s[n]}
  {
    assert s[..n + 1] == s[..n] + [s[n]];
  }

  lemma NoExpansion(g: Grammar, i: Item)
    requires g.Valid() && !(CanShift(g, i) && g.Nonterminal(SymbolAt(g, i)))
    ensures forall q | 0 <= q < |g.rules| :: !Expands(g, i, Item(q, 0))
  {
  }

  lemma Finished(g: Grammar, basis: seq<Item>, init: set<nat>, done: set<(Item, nat)>,
                 current: seq<Item>, fws: map<Item, set<nat>>, fplp: map<Item, seq<Item>>)
    requires ClosureInv(g, basis, init, done, current, fws, fplp)
    requires forall k | 0 <= k < |current| :: Expanded(g, done, current[k], |g.rules|)
    ensures ClosureOf(g, basis, init, current, fws, fplp)
  {
    AllExpanded(g, done, current);
    FinishedClosed(g, done, current);
    ClosureIsLeast(g, Elements(basis), Elements(current));
    forall j, a: nat | j in fws
      ensures Fed(g, done, j, a) <==> ContributedBy(g, current, j, a)
    {
      FinishedFed(g, done, current, j, a);
    }
    forall i, j: Item | i in fplp
      ensures (i, j.rule) in done && Propagates(g, i, j) <==> Propagates(g, i, j)
    {
      assert Propagates(g, i, j) ==> j == Item(j.rule, 0);
    }
  }

  /** Exactly the expansions of the listed items are done. */
  ghost predicate ExactlyDone(g: Grammar, done: set<(Item, nat)>, current: seq<Item>) {
    forall i, r | 0 <= r < |g.rules| :: (i, r) in done <==> i in current && Expands(g, i, Item(r, 0))
  }

  lemma AllExpanded(g: Grammar, done: set<(Item, nat)>, current: seq<Item>)
    requires DoneIn(g, done, Elements(current))
    requires forall k | 0 <= k < |current| :: Expanded(g, done, current[k], |g.rules|)
    ensures ExactlyDone(g, done, current)
  {
    forall i, r | 0 <= r < |g.rules| && i in current && Expands(g, i, Item(r, 0))
      ensures (i, r) in done
    {
      var k :| 0 <= k < |current| && current[k] == i;
      assert Expanded(g, done, current[k], |g.rules|);
    }
  }

  lemma FinishedClosed(g: Grammar, done: set<(Item, nat)>, current: seq<Item>)
    requires DoneIn(g, done, Elements(current)) && ExactlyDone(g, done, current)
    ensures Closed(g, Elements(current))
  {
    forall i, j | i in Elements(current) && Expands(g, i, j)
      ensures j in Elements(current)
    {
      assert j == Item(j.rule, 0);
      assert (i, j.rule) in done;
    }
  }

  lemma FinishedFed(g: Grammar, done: set<(Item, nat)>, current: seq<Item>, j: Item, a: nat)
    requires DoneIn(g, done, Elements(current)) && ExactlyDone(g, done, current)
    ensures Fed(g, done, j, a) <==> ContributedBy(g, current, j, a)
  {
    if i :| i in current && Contributes(g, i, j, a) {
      assert j == Item(j.rule, 0);
      assert (i, j.rule) in done;
    }
  }

  /** The rules of the nonterminal behind the dot of configuration n. */
  method Expand(g: Grammar, lambda: seq<bool>, first: seq<set<nat>>, basis: seq<Item>, init: set<nat>,
                ghost done0: set<(Item, nat)>, n: nat,
                current0: seq<Item>, fws0: map<Item, set<nat>>, fplp0: map<Item, seq<Item>>)
    returns (current: seq<Item>, fws: map<Item, set<nat>>, fplp: map<Item, seq<Item>>, ghost done: set<(Item, nat)>)
    requires g.Valid() && LambdaExact(g, lambda) && FirstExact(g, first)
    requires ValidItems(g, basis) && n < |current0| && CanShift(g, current0[n])
    requires ClosureInv(g, basis, init, done0, current0, fws0, fplp0)
    ensures ClosureInv(g, basis, init, done, current, fws, fplp)
    ensures current0 <= current && done0 <= done
    ensures Expanded(g, done, current0[n], |g.rules|)
  {
    current, fws, fplp, done := current0, fws0, fplp0, done0;
    var cfp := current0[n];
    var sp := SymbolAt(g, cfp);
    TailSymbols(g, cfp);
    for r := 0 to |g.rules|
      invariant ClosureInv(g, basis, init, done, current, fws, fplp)
      invariant current0 <= current && done0 <= done
      invariant Expanded(g, done, cfp, r)
    {
      if g.rules[r].lhs == sp {
        current, fws, fplp := ExpandRule(g, lambda, first, basis, init, done, cfp, r, current, fws, fplp);
        done := done + {(cfp, r)};
      }
    }
  }

  method ExpandRule(g: Grammar, lambda: seq<bool>, first: seq<set<nat>>, basis: seq<Item>, init: set<nat>,
                    ghost done: set<(Item, nat)>, cfp: Item, r: nat,
                    current0: seq<Item>, fws0: map<Item, set<nat>>, fplp0: map<Item, seq<Item>>)
    returns (current: seq<Item>, fws: map<Item, set<nat>>, fplp: map<Item, seq<Item>>)
    requires g.Valid() && LambdaExact(g, lambda) && FirstExact(g, first)
    requires ValidItems(g, basis) && cfp in current0 && Expands(g, cfp, Item(r, 0))
    requires forall k | 0 <= k < |Tail(g, cfp)| :: Tail(g, cfp)[k] < g.NSymbol()
    requires ClosureInv(g, basis, init, done, current0, fws0, fplp0)
    ensures ClosureInv(g, basis, init, done + {(cfp, r)}, current, fws, fplp)
    ensures current0 <= current
  {
    current, fws, fplp := current0, fws0, fplp0;
    var j := Item(r, 0);
    if j !in fws {
      NewItemStep(g, basis, init, done, current, fws, fplp, cfp, r);
      current, fws, fplp := current + [j], fws[j := {}], fplp[j := []];
    }
    var s, all := AddTail(g, lambda, first, Tail(g, cfp), fws[j]);
    FeedStep(g, basis, init, done, current, fws, fplp, cfp, r, s, all);
    fws := fws[j := s];
    if all {
      fplp := fplp[cfp := [j] + fplp[cfp]];
    }
  }

  lemma TailSymbols(g: Grammar, i: Item)
    requires g.Valid() && CanShift(g, i)
    ensures forall k | 0 <= k < |Tail(g, i)| :: Tail(g, i)[k] < g.NSymbol()
  {
    assert g.ValidRule(g.rules[i.rule]);
  }

  lemma NewItemStep(g: Grammar, basis: seq<Item>, init: set<nat>, done: set<(Item, nat)>,
                    current: seq<Item>, fws: map<Item, set<nat>>, fplp: map<Item, seq<Item>>, i: Item, r: nat)
    requires ValidItems(g, basis) && ClosureInv(g, basis, init, done, current, fws, fplp)
    requires i in current && Expands(g, i, Item(r, 0)) && Item(r, 0) !in fws
    ensures var j := Item(r, 0);
            ClosureInv(g, basis, init, done, current + [j], fws[j := {}], fplp[j := []])
  {
    hide ListOk, DoneIn, FwsInv, LinkInv;
    var j := Item(r, 0);
    ListedFacts(g, basis, current, fws, fplp, j);
    NewItemListed(g, basis, current, fws, fplp, i, j);
    NothingFed(g, basis, init, done, current, fws, fplp, r);
  }

  lemma ListedFacts(g: Grammar, basis: seq<Item>, current: seq<Item>, fws: map<Item, set<nat>>,
                    fplp: map<Item, seq<Item>>, j: Item)
    requires ListOk(g, basis, current, fws, fplp) && j !in fws
    ensures j !in current && j !in basis
  {
    assert j !in Elements(current);
  }

  /** A new configuration has neither been expanded nor been fed. */
  lemma NothingFed(g: Grammar, basis: seq<Item>, init: set<nat>, done: set<(Item, nat)>,
                   current: seq<Item>, fws: map<Item, set<nat>>, fplp: map<Item, seq<Item>>, r: nat)
    requires DoneIn(g, done, Elements(current)) && FwsInv(g, basis, init, done, fws) && LinkInv(g, done, fplp)
    requires Item(r, 0) !in current && Item(r, 0) !in basis
    ensures var j := Item(r, 0);
            && DoneIn(g, done, Elements(current + [j]))
            && FwsInv(g, basis, init, done, fws[j := {}])
            && LinkInv(g, done, fplp[j := []])
  {
    hide Contributes, Propagates, Expands;
    var j := Item(r, 0);
    assert j !in Elements(current);
    assert Elements(current) <= Elements(current + [j]);
    assert forall a: nat :: !Fed(g, done, j, a);
  }

  lemma NewItemListed(g: Grammar, basis: seq<Item>, current: seq<Item>, fws: map<Item, set<nat>>,
                      fplp: map<Item, seq<Item>>, i: Item, j: Item)
    requires ValidItems(g, basis) && ListOk(g, basis, current, fws, fplp)
    requires i in current && Expands(g, i, j) && j !in current
    ensures ListOk(g, basis, current + [j], fws[j := {}], fplp[j := []])
    ensures Elements(current + [j]) == Elements(current) + {j}
  {
    BasisInItems(g, basis);
    assert i in Elements(current) && i in Closure(g, Elements(basis));
    assert Elements(current + [j]) == Elements(current) + {j};
  }

  lemma FeedStep(g: Grammar, basis: seq<Item>, init: set<nat>, done: set<(Item, nat)>,
                 current: seq<Item>, fws: map<Item, set<nat>>, fplp: map<Item, seq<Item>>,
                 i: Item, r: nat, s: set<nat>, all: bool)
    requires ClosureInv(g, basis, init, done, current, fws, fplp)
    requires i in current && Expands(g, i, Item(r, 0)) && Item(r, 0) in fws
    requires all <==> NullableSeq(g, Tail(g, i))
    requires forall a: nat :: a in s <==> a in fws[Item(r, 0)] || (a < g.nterminal && FirstSeq(g, Tail(g, i), a))
    ensures var j := Item(r, 0);
            ClosureInv(g, basis, init, done + {(i, r)}, current, fws[j := s],
                       if all then fplp[i := [j] + fplp[i]] else fplp)
  {
    hide ListOk, DoneIn, FwsInv, LinkInv, NullableSeq, FirstSeq;
    var j, done' := Item(r, 0), done + {(i, r)};
    FeedListed(g, basis, done, current, fws, fplp, i, r, s, all);
    FeedFws(g, basis, init, done, fws, i, r, s);
    FeedLinks(g, done, fplp, i, r, all);
  }

  lemma FeedListed(g: Grammar, basis: seq<Item>, done: set<(Item, nat)>, current: seq<Item>,
                   fws: map<Item, set<nat>>, fplp: map<Item, seq<Item>>, i: Item, r: nat, s: set<nat>, all: bool)
    requires ListOk(g, basis, current, fws, fplp) && DoneIn(g, done, Elements(current))
    requires i in current && Expands(g, i, Item(r, 0)) && Item(r, 0) in fws
    ensures i in fplp && DoneIn(g, done + {(i, r)}, Elements(current))
    ensures ListOk(g, basis, current, fws[Item(r, 0) := s], if all then fplp[i := [Item(r, 0)] + fplp[i]] else fplp)
  {
    hide ListOk, Expands;
    ListedKeys(g, basis, current, fws, fplp, i, Item(r, 0));
    var fws', fplp' := fws[Item(r, 0) := s], if all then fplp[i := [Item(r, 0)] + fplp[i]] else fplp;
    assert fws'.Keys == fws.Keys && fplp'.Keys == fplp.Keys;
    ListedStill(g, basis, current, fws, fplp, fws', fplp');
  }

  lemma ListedKeys(g: Grammar, basis: seq<Item>, current: seq<Item>, fws: map<Item, set<nat>>,
                   fplp: map<Item, seq<Item>>, i: Item, j: Item)
    requires ListOk(g, basis, current, fws, fplp) && i in current && j in fws
    ensures i in fplp && j in Elements(current) && i in Elements(current)
  {
  }

  lemma ListedStill(g: Grammar, basis: seq<Item>, current: seq<Item>, fws: map<Item, set<nat>>,
                    fplp: map<Item, seq<Item>>,
                    fws': map<Item, set<nat>>, fplp': map<Item, seq<Item>>)
    requires ListOk(g, basis, current, fws, fplp) && fws'.Keys == fws.Keys && fplp'.Keys == fplp.Keys
    ensures ListOk(g, basis, current, fws', fplp')
  {
  }

  lemma FeedFws(g: Grammar, basis: seq<Item>, init: set<nat>, done: set<(Item, nat)>, fws: map<Item, set<nat>>,
                i: Item, r: nat, s: set<nat>)
    requires FwsInv(g, basis, init, done, fws) && Expands(g, i, Item(r, 0)) && Item(r, 0) in fws
    requires forall a: nat :: a in s <==> a in fws[Item(r, 0)] || (a < g.nterminal && FirstSeq(g, Tail(g, i), a))
    ensures FwsInv(g, basis, init, done + {(i, r)}, fws[Item(r, 0) := s])
  {
    hide FirstSeq;
    var j0, done' := Item(r, 0), done + {(i, r)};
    forall j, a: nat
      ensures Fed(g, done', j, a) <==> Fed(g, done, j, a) || (j.rule == r && Contributes(g, i, j, a))
    {
      if j.rule == r && Contributes(g, i, j, a) {
        assert (i, j.rule) in done';
      }
    }
  }

  lemma FeedLinks(g: Grammar, done: set<(Item, nat)>, fplp: map<Item, seq<Item>>, i: Item, r: nat, all: bool)
    requires LinkInv(g, done, fplp) && i in fplp && Expands(g, i, Item(r, 0))
    requires all <==> NullableSeq(g, Tail(g, i))
    ensures LinkInv(g, done + {(i, r)}, if all then fplp[i := [Item(r, 0)] + fplp[i]] else fplp)
  {
    hide NullableSeq;
  }

  /** Scan what is left of the rule: add what it can begin with, and tell whether it vanishes. */
  method AddTail(g: Grammar, lambda: seq<bool>, first: seq<set<nat>>, tail: seq<nat>, s0: set<nat>)
    returns (s: set<nat>, all: bool)
    requires g.Valid() && LambdaExact(g, lambda) && FirstExact(g, first)
    requires forall k | 0 <= k < |tail| :: tail[k] < g.NSymbol()
    ensures all <==> NullableSeq(g, tail)
    ensures forall a: nat :: a in s <==> a in s0 || (a < g.nterminal && FirstSeq(g, tail, a))
  {
    s := s0;
    var i := 0;
    while i < |tail|
      invariant 0 <= i <= |tail|
      invariant AllLambda(lambda, tail[..i])
      invariant forall a: nat :: a in s <==> a in s0 || ScanFinds(g, first, tail, i, a)
    {
      var xsp := tail[i];
      s := s + (if xsp < g.nterminal then {xsp} else first[xsp]);
      TerminalNotNullable(g, lambda, xsp);
      if xsp < g.nterminal || !lambda[xsp] { break; }
      i := i + 1;
    }
    all := i == |tail|;
    assert forall a: nat :: a in s <==> a in s0 || ScanFinds(g, first, tail, i + 1, a);
    ScanIsFirst(g, lambda, first, tail, i);
  }

  /** a is contributed by one of the first n symbols. */
  ghost predicate ScanFinds(g: Grammar, first: seq<set<nat>>, tail: seq<nat>, n: nat, a: nat) {
    exists k | 0 <= k < |tail| && k < n :: a in Begins(g, first, tail[k])
  }

  lemma ScanIsFirst(g: Grammar, lambda: seq<bool>, first: seq<set<nat>>, tail: seq<nat>, i: nat)
    requires g.Valid() && LambdaExact(g, lambda) && FirstExact(g, first)
    requires forall k | 0 <= k < |tail| :: tail[k] < g.NSymbol()
    requires i <= |tail| && AllLambda(lambda, tail[..i])
    requires i < |tail| ==> !lambda[tail[i]]
    ensures i == |tail| <==> NullableSeq(g, tail)
    ensures forall a: nat ::
              a < g.nterminal && FirstSeq(g, tail, a) <==>
              ScanFinds(g, first, tail, i + 1, a)
  {
    AllLambdaIsNullable(g, lambda, tail);
    if i == |tail| { assert tail[..i] == tail; }
    forall k | 0 <= k < |tail|
      ensures AllLambda(lambda, tail[..k]) <==> k <= i
    {
      if k > i {
        assert tail[..k][i] == tail[i];
      } else {
        assert forall m | 0 <= m < k :: tail[..k][m] == tail[..i][m];
      }
    }
    forall a: nat
      ensures a < g.nterminal && FirstSeq(g, tail, a) <==>
              ScanFinds(g, first, tail, i + 1, a)
    {
      if a < g.nterminal {
        FirstSeqByTables(g, lambda, first, tail, a);
        assert forall k | 0 <= k < |tail| :: AllLambda(lambda, tail[..k]) <==> k < i + 1;
      } else {
        forall k | 0 <= k < |tail|
          ensures a !in Begins(g, first, tail[k])
        {
          assert tail[k] >= g.nterminal ==> IsFirstSet(g, tail[k], first[tail[k]]);
        }
      }
    }
  }
}
