/** `FindStates`: the mutual recursion of `getstate` and `buildshifts`, which follows every goto
    from the start configurations. */
module StateBuilders {
  import opened Grammars
  import opened FirstSets
  import opened Items
  import opened Actions
  import opened Collections
  import opened ConfigLists
  import opened StateTables
  import opened MSort

  // ---------------------------------------------------------------- the state under construction

  /** What holds whenever `getstate` is called or returns, whichever states still lack shifts. */
  ghost predicate Built(g: Grammar, states: seq<State>, fws: map<Config, set<nat>>,
                        fplp: map<Config, seq<Config>>, bplp: map<Config, seq<Config>>) {
    && (states != [] ==> Kernel(states[0]) == StartItems(g))
    && DistinctKernels(states)
    && (forall s | 0 <= s < |states| :: StateOk(g, states[s]) && ActionsOk(g, states, s))
    && FwsOk(g, states, fws)
    && FplpOk(g, states, fplp)
    && BplpSound(g, states, bplp)
  }

  /** Old states are left alone. */
  ghost predicate Extends(old_: seq<State>, new_: seq<State>) {
    |old_| <= |new_| && forall s | 0 <= s < |old_| :: new_[s] == old_[s]
  }

  ghost predicate LinksGrow(old_: map<Config, seq<Config>>, new_: map<Config, seq<Config>>) {
    forall c, d | IsLinked(old_, d, c) :: IsLinked(new_, d, c)
  }

  ghost predicate LinkedFrom(g: Grammar, states: seq<State>, bplp: map<Config, seq<Config>>, from: nat) {
    forall s | from <= s < |states| :: LinkedState(g, states, bplp, s)
  }

  /** `back` gives for each configuration of a new basis the configurations it came from. */
  ghost predicate BackOk(g: Grammar, states: seq<State>, basis: seq<Item>, back: map<Item, seq<Config>>) {
    && back.Keys == Elements(basis)
    && forall i, d | i in back && d in back[i] :: ComesFrom(g, states, Elements(basis), d, i)
  }

  ghost predicate ComesFrom(g: Grammar, states: seq<State>, kernel: set<Item>, d: Config, i: Item) {
    && d.stp < |states|
    && d.item in states[d.stp].cfp
    && CanShift(g, d.item)
    && i == Advance(d.item)
    && kernel == Goto(g, ItemsOf(states[d.stp]), SymbolAt(g, d.item))
  }

  ghost predicate BackLinked(bplp: map<Config, seq<Config>>, q: nat, back: map<Item, seq<Config>>) {
    forall i, d | i in back && d in back[i] :: IsLinked(bplp, d, Config(q, i))
  }

  // ---------------------------------------------------------------- possible kernels not yet seen

  ghost function Unseen(g: Grammar, states: seq<State>): set<set<Item>> {
    (set k: set<Item> | k <= AllItems(g)) - (set s | 0 <= s < |states| :: Kernel(states[s]))
  }

  lemma UnseenShrinks(g: Grammar, old_: seq<State>, new_: seq<State>)
    requires |old_| <= |new_| && forall s | 0 <= s < |old_| :: new_[s].bp == old_[s].bp
    ensures Unseen(g, new_) <= Unseen(g, old_)
  {
    forall s | 0 <= s < |old_|
      ensures Kernel(old_[s]) in (set t | 0 <= t < |new_| :: Kernel(new_[t]))
    {
      assert Kernel(new_[s]) == Kernel(old_[s]);
    }
  }

  lemma UnseenNew(g: Grammar, states: seq<State>, st: State)
    requires g.Valid() && SortedItems(g, st.bp)
    requires forall s | 0 <= s < |states| :: SortedItems(g, states[s].bp) && states[s].bp != st.bp
    ensures Unseen(g, states + [st]) < Unseen(g, states)
  {
    UnseenShrinks(g, states, states + [st]);
    var k := Kernel(st);
    assert k <= AllItems(g);
    forall s | 0 <= s < |states|
      ensures Kernel(states[s]) != k
    {
      if Kernel(states[s]) == k { SortedItemsUnique(g, states[s].bp, st.bp); }
    }
    assert k in Unseen(g, states);
    assert (states + [st])[|states|] == st;
    assert k !in Unseen(g, states + [st]);
  }

  // ---------------------------------------------------------------- adding a state

  function LiftSets(q: nat, m: map<Item, set<nat>>): map<Config, set<nat>> {
    map i | i in m :: Config(q, i) := m[i]
  }

  function LiftLinks(q: nat, m: map<Item, seq<Item>>): map<Config, seq<Config>> {
    map i | i in m :: Config(q, i) := seq(|m[i]|, k requires 0 <= k < |m[i]| => Config(q, m[i][k]))
  }

  function LiftBack(q: nat, cfp: seq<Item>, back: map<Item, seq<Config>>): map<Config, seq<Config>> {
    map i | i in cfp :: Config(q, i) := if i in back then back[i] else []
  }

  lemma CoversNew<T>(states: seq<State>, m: map<Config, T>, st: State, n: map<Config, T>)
    requires Covers(states, m)
    requires forall c :: c in n <==> c.stp == |states| && c.item in st.cfp
    ensures Covers(states + [st], m + n)
  {
    forall c
      ensures c in m + n <==> IsConfig(states + [st], c)
    {
      assert IsConfig(states + [st], c) <==> IsConfig(states, c) || (c.stp == |states| && c.item in st.cfp);
    }
  }

  lemma FwsNew(g: Grammar, states: seq<State>, fws: map<Config, set<nat>>, st: State,
               init: set<nat>, list: seq<Item>, f: map<Item, set<nat>>, p: map<Item, seq<Item>>)
    requires FwsOk(g, states, fws) && ClosureOf(g, st.bp, init, list, f, p)
    requires Elements(list) == Elements(st.cfp)
    requires init == if states == [] then {0} else {}
    ensures FwsOk(g, states + [st], fws + LiftSets(|states|, f))
  {
    var q, new_ := |states|, states + [st];
    forall c
      ensures c in LiftSets(q, f) <==> c.stp == q && c.item in st.cfp
    {
      assert c.item in f <==> c.item in Elements(list);
      assert c.item in Elements(st.cfp) <==> c.item in st.cfp;
      if c.stp == q && c.item in f { assert c == Config(q, c.item); }
    }
    CoversNew(states, fws, st, LiftSets(q, f));
    forall c, a: nat | c in fws + LiftSets(q, f)
      ensures a in (fws + LiftSets(q, f))[c] <==> Generated(g, new_, c, a)
    {
      if c.stp == q {
        assert c == Config(q, c.item) && c in LiftSets(q, f);
        assert (fws + LiftSets(q, f))[c] == f[c.item];
        SameContributors(g, list, st.cfp, c.item, a);
      } else {
        assert IsConfig(states, c) && c in fws && c !in LiftSets(q, f);
        assert new_[c.stp] == states[c.stp] && new_[0] == states[0];
        assert Generated(g, new_, c, a) == Generated(g, states, c, a);
      }
    }
  }

  lemma SameContributors(g: Grammar, s: seq<Item>, t: seq<Item>, j: Item, a: nat)
    requires Elements(s) == Elements(t)
    ensures ContributedBy(g, s, j, a) <==> exists i :: i in t && Contributes(g, i, j, a)
  {
    assert forall i :: i in s <==> i in Elements(s);
    assert forall i :: i in t <==> i in Elements(t);
  }

  lemma FplpNew(g: Grammar, states: seq<State>, fplp: map<Config, seq<Config>>, st: State,
                init: set<nat>, list: seq<Item>, f: map<Item, set<nat>>, p: map<Item, seq<Item>>)
    requires FplpOk(g, states, fplp) && ClosureOf(g, st.bp, init, list, f, p)
    requires Elements(list) == Elements(st.cfp)
    ensures FplpOk(g, states + [st], fplp + LiftLinks(|states|, p))
  {
    var q, n := |states|, LiftLinks(|states|, p);
    forall c
      ensures c in n <==> c.stp == q && c.item in st.cfp
    {
      assert c.item in p <==> c.item in Elements(list);
      assert c.item in Elements(st.cfp) <==> c.item in st.cfp;
      if c.stp == q && c.item in p { assert c == Config(q, c.item); }
    }
    CoversNew(states, fplp, st, n);
    forall c, d | c in fplp + n
      ensures d in (fplp + n)[c] <==> d.stp == c.stp && Propagates(g, c.item, d.item)
    {
      if c.stp == q {
        assert c == Config(q, c.item);
        assert d.item in p[c.item] <==> Propagates(g, c.item, d.item);
        LiftedIn(q, p[c.item], d);
      } else {
        assert c in fplp;
      }
    }
  }

  lemma LiftedIn(q: nat, s: seq<Item>, d: Config)
    ensures d in seq(|s|, k requires 0 <= k < |s| => Config(q, s[k])) <==> d.stp == q && d.item in s
  {
    var lifted := seq(|s|, k requires 0 <= k < |s| => Config(q, s[k]));
    if d.stp == q && d.item in s {
      var k :| 0 <= k < |s| && s[k] == d.item;
      assert lifted[k] == d;
    }
  }

  lemma BplpNew(g: Grammar, states: seq<State>, bplp: map<Config, seq<Config>>, st: State, back: map<Item, seq<Config>>)
    requires BplpSound(g, states, bplp) && BackOk(g, states, st.bp, back)
    ensures BplpSound(g, states + [st], bplp + LiftBack(|states|, st.cfp, back))
    ensures LinksGrow(bplp, bplp + LiftBack(|states|, st.cfp, back))
    ensures Elements(st.bp) <= Elements(st.cfp) ==>
              BackLinked(bplp + LiftBack(|states|, st.cfp, back), |states|, back)
  {
    var q, n, new_ := |states|, LiftBack(|states|, st.cfp, back), states + [st];
    forall c
      ensures c in n <==> c.stp == q && c.item in st.cfp
    {
      if c.stp == q && c.item in st.cfp { assert c == Config(q, c.item); }
    }
    CoversNew(states, bplp, st, n);
    forall c, d | c in bplp + n && d in (bplp + n)[c]
      ensures BackLink(g, new_, d, c)
    {
      if c.stp == q {
        assert c == Config(q, c.item);
        assert c.item in back && ComesFrom(g, states, Elements(st.bp), d, c.item);
        assert new_[d.stp] == states[d.stp] && new_[q] == st;
      } else {
        assert BackLink(g, states, d, c);
        assert new_[d.stp] == states[d.stp] && new_[c.stp] == states[c.stp];
      }
    }
    forall c, d | IsLinked(bplp, d, c)
      ensures IsLinked(bplp + n, d, c)
    {
      assert c.stp < q;
    }
    if Elements(st.bp) <= Elements(st.cfp) {
      forall i, d | i in back && d in back[i]
        ensures IsLinked(bplp + n, d, Config(q, i))
      {
        assert i in Elements(st.cfp);
        assert n[Config(q, i)] == back[i];
      }
    }
  }

  lemma StatesNew(g: Grammar, states: seq<State>, st: State)
    requires states != [] ==> Kernel(states[0]) == StartItems(g)
    requires states == [] ==> Kernel(st) == StartItems(g)
    requires DistinctKernels(states)
    requires forall s | 0 <= s < |states| :: StateOk(g, states[s]) && ActionsOk(g, states, s) && states[s].bp != st.bp
    requires StateOk(g, st) && st.ap == []
    ensures var new_ := states + [st];
            && Kernel(new_[0]) == StartItems(g)
            && DistinctKernels(new_)
            && forall s | 0 <= s < |new_| :: StateOk(g, new_[s]) && ActionsOk(g, new_, s)
  {
    var new_ := states + [st];
    forall s | 0 <= s < |new_|
      ensures StateOk(g, new_[s]) && ActionsOk(g, new_, s)
    {
      if s < |states| {
        assert StateOk(g, states[s]) && ActionsOk(g, states, s);
        forall a | a in new_[s].ap
          ensures ShiftOk(g, new_, s, a)
        {
          assert ShiftOk(g, states, s, a);
        }
      }
    }
  }

  // ---------------------------------------------------------------- adding links and shifts

  lemma AddLinks(g: Grammar, states: seq<State>, bplp: map<Config, seq<Config>>, basis: seq<Item>, q: nat,
                 back: map<Item, seq<Config>>, new_: map<Config, seq<Config>>)
    requires BplpSound(g, states, bplp) && BackOk(g, states, basis, back)
    requires q < |states| && Kernel(states[q]) == Elements(basis) && Elements(basis) <= ItemsOf(states[q])
    requires new_.Keys == bplp.Keys
    requires forall c | c in bplp :: new_[c] == if c.stp == q && c.item in back then bplp[c] + back[c.item] else bplp[c]
    ensures BplpSound(g, states, new_) && LinksGrow(bplp, new_) && BackLinked(new_, q, back)
  {
    forall c, d | c in new_ && d in new_[c]
      ensures BackLink(g, states, d, c)
    {
      if d !in bplp[c] {
        assert ComesFrom(g, states, Elements(basis), d, c.item);
      }
    }
    forall i, d | i in back && d in back[i]
      ensures IsLinked(new_, d, Config(q, i))
    {
      assert i in ItemsOf(states[q]);
      assert IsConfig(states, Config(q, i));
    }
  }

  lemma BasisKnown(g: Grammar, states: seq<State>, fws: map<Config, set<nat>>, fplp: map<Config, seq<Config>>,
                   bplp: map<Config, seq<Config>>, bp: seq<Item>, q: nat, back: map<Item, seq<Config>>)
    requires Built(g, states, fws, fplp, bplp) && q < |states| && states[q].bp == bp && BackOk(g, states, bp, back)
    ensures Distinct(bp) && back.Keys == Elements(bp)
    ensures forall i | i in bp :: Config(q, i) in bplp && i in back
  {
    hide Closure, ActionsOk, FwsOk, FplpOk;
    assert StateOk(g, states[q]);
    KernelInItems(g, states[q]);
    SortedDistinct(g, bp);
    forall i | i in bp
      ensures Config(q, i) in bplp && i in back
    {
      assert i in Elements(bp) && i in ItemsOf(states[q]);
      assert IsConfig(states, Config(q, i));
    }
  }

  lemma LinksAdded(g: Grammar, states: seq<State>, fws: map<Config, set<nat>>, fplp: map<Config, seq<Config>>,
                   bplp: map<Config, seq<Config>>, bp: seq<Item>, q: nat, back: map<Item, seq<Config>>,
                   new_: map<Config, seq<Config>>)
    requires Built(g, states, fws, fplp, bplp) && q < |states| && states[q].bp == bp && BackOk(g, states, bp, back)
    requires new_.Keys == bplp.Keys
    requires forall c | c in bplp :: new_[c] == if c.stp == q && c.item in back then bplp[c] + back[c.item] else bplp[c]
    ensures Built(g, states, fws, fplp, new_) && LinksGrow(bplp, new_) && BackLinked(new_, q, back)
  {
    hide BplpSound, LinksGrow, BackLinked, ActionsOk, FwsOk, FplpOk, BackOk;
    assert StateOk(g, states[q]);
    KernelInItems(g, states[q]);
    AddLinks(g, states, bplp, bp, q, back, new_);
  }

  lemma LinkedMonotone(g: Grammar, old_: seq<State>, new_: seq<State>, b0: map<Config, seq<Config>>,
                       b1: map<Config, seq<Config>>, s: nat, i: Item)
    requires s < |old_| && s < |new_| && LinksGrow(b0, b1)
    requires forall a | a in old_[s].ap :: a in new_[s].ap
    requires LinkedItem(g, old_, b0, s, i)
    ensures LinkedItem(g, new_, b1, s, i)
  {
  }

  lemma LinkedStays(g: Grammar, old_: seq<State>, new_: seq<State>, b0: map<Config, seq<Config>>,
                    b1: map<Config, seq<Config>>, s: nat)
    requires s < |old_| && s < |new_| && LinksGrow(b0, b1) && new_[s] == old_[s]
    requires LinkedState(g, old_, b0, s)
    ensures LinkedState(g, new_, b1, s)
  {
    forall i | i in new_[s].cfp && CanShift(g, i)
      ensures LinkedItem(g, new_, b1, s, i)
    {
      assert LinkedItem(g, old_, b0, s, i);
      LinkedMonotone(g, old_, new_, b0, b1, s, i);
    }
  }

  // ---------------------------------------------------------------- the shifts of one state

  ghost predicate ShiftedFor(g: Grammar, states: seq<State>, bplp: map<Config, seq<Config>>, s: nat, done: set<nat>)
    requires s < |states|
  {
    && (forall a | a in states[s].ap :: a.sp in done)
    && (forall i | i in states[s].cfp && CanShift(g, i) && SymbolAt(g, i) in done :: LinkedItem(g, states, bplp, s, i))
  }

  function AddAction(states: seq<State>, s: nat, a: Action): seq<State>
    requires s < |states|
  {
    states[s := states[s].(ap := [a] + states[s].ap)]
  }

  lemma ShiftAdded(g: Grammar, states: seq<State>, fws: map<Config, set<nat>>, fplp: map<Config, seq<Config>>,
                   bplp: map<Config, seq<Config>>, s: nat, done: set<nat>, x: nat, q: nat, back: map<Item, seq<Config>>)
    requires Built(g, states, fws, fplp, bplp) && s < |states| && q < |states|
    requires ShiftedFor(g, states, bplp, s, done) && x !in done
    requires exists i :: i in states[s].cfp && Shifts(g, i, x)
    requires Kernel(states[q]) == Goto(g, ItemsOf(states[s]), x)
    requires forall i | i in states[s].cfp && Shifts(g, i, x) :: Advance(i) in back && Config(s, i) in back[Advance(i)]
    requires BackLinked(bplp, q, back)
    ensures var new_ := AddAction(states, s, Action(x, SHIFT, q));
            && Built(g, new_, fws, fplp, bplp)
            && ShiftedFor(g, new_, bplp, s, done + {x})
  {
    var a0 := Action(x, SHIFT, q);
    var new_ := AddAction(states, s, a0);
    BuiltAdded(g, states, fws, fplp, bplp, s, done, x, q);
    forall i | i in new_[s].cfp && CanShift(g, i) && SymbolAt(g, i) in done + {x}
      ensures LinkedItem(g, new_, bplp, s, i)
    {
      if SymbolAt(g, i) == x {
        assert Shifts(g, i, x);
        assert IsLinked(bplp, Config(s, i), Config(q, Advance(i)));
        assert a0 in new_[s].ap;
      } else {
        LinkedMonotone(g, states, new_, bplp, bplp, s, i);
      }
    }
  }

  lemma BuiltAdded(g: Grammar, states: seq<State>, fws: map<Config, set<nat>>, fplp: map<Config, seq<Config>>,
                   bplp: map<Config, seq<Config>>, s: nat, done: set<nat>, x: nat, q: nat)
    requires Built(g, states, fws, fplp, bplp) && s < |states| && q < |states|
    requires (forall a | a in states[s].ap :: a.sp in done) && x !in done
    requires exists i :: i in states[s].cfp && Shifts(g, i, x)
    requires Kernel(states[q]) == Goto(g, ItemsOf(states[s]), x)
    ensures Built(g, AddAction(states, s, Action(x, SHIFT, q)), fws, fplp, bplp)
  {
    var new_ := AddAction(states, s, Action(x, SHIFT, q));
    forall t | 0 <= t < |new_|
      ensures StateOk(g, new_[t]) && ActionsOk(g, new_, t)
    {
      assert StateOk(g, states[t]) && ActionsOk(g, states, t);
      forall a | a in new_[t].ap
        ensures ShiftOk(g, new_, t, a)
      {
        if a in states[t].ap { assert ShiftOk(g, states, t, a); }
      }
    }
    ActionsDoNotMatter(g, states, new_, fws, fplp, bplp);
  }

  /** Links and follow sets only speak of the configurations of the states. */
  lemma ActionsDoNotMatter(g: Grammar, states: seq<State>, new_: seq<State>, fws: map<Config, set<nat>>,
                           fplp: map<Config, seq<Config>>, bplp: map<Config, seq<Config>>)
    requires |states| == |new_|
    requires forall t | 0 <= t < |states| :: new_[t].bp == states[t].bp && new_[t].cfp == states[t].cfp
    requires FwsOk(g, states, fws) && FplpOk(g, states, fplp) && BplpSound(g, states, bplp)
    ensures FwsOk(g, new_, fws) && FplpOk(g, new_, fplp) && BplpSound(g, new_, bplp)
  {
    forall c
      ensures IsConfig(new_, c) <==> IsConfig(states, c)
    {
    }
    forall c, a: nat | c in fws
      ensures Generated(g, new_, c, a) <==> Generated(g, states, c, a)
    {
      assert IsConfig(states, c);
    }
    forall c, d | c in bplp && d in bplp[c]
      ensures BackLink(g, new_, d, c)
    {
      assert BackLink(g, states, d, c);
    }
  }

  lemma ShiftedStays(g: Grammar, old_: seq<State>, new_: seq<State>, b0: map<Config, seq<Config>>,
                     b1: map<Config, seq<Config>>, s: nat, done: set<nat>)
    requires s < |old_| && s < |new_| && LinksGrow(b0, b1) && new_[s] == old_[s]
    requires ShiftedFor(g, old_, b0, s, done)
    ensures ShiftedFor(g, new_, b1, s, done)
  {
    forall i | i in new_[s].cfp && CanShift(g, i) && SymbolAt(g, i) in done
      ensures LinkedItem(g, new_, b1, s, i)
    {
      LinkedMonotone(g, old_, new_, b0, b1, s, i);
    }
  }

  /** The basis reached by sp, each configuration with the one it came from. */
  ghost predicate IsSuccessor(g: Grammar, s: nat, cfp: seq<Item>, sp: nat,
                              basis: seq<Item>, back: map<Item, seq<Config>>) {
    && ValidItems(g, basis) && Distinct(basis)
    && (exists i :: i in cfp && Shifts(g, i, sp))
    && Elements(basis) == Goto(g, Elements(cfp), sp) == back.Keys
    && forall i | i in cfp && Shifts(g, i, sp) :: Advance(i) in back && back[Advance(i)] == [Config(s, i)]
  }

  ghost predicate StatusAfter(g: Grammar, cfp: seq<Item>, s0: seq<bool>, s1: seq<bool>, x: nat) {
    && |s0| == |s1| == |cfp|
    && forall k | 0 <= k < |cfp| :: s1[k] == (s0[k] || Shifts(g, cfp[k], x))
  }

  /** The inner loop of `buildshifts`: from configuration n on, those with sp behind the dot make
      the basis of the successor. */
  method Successor(g: Grammar, s: nat, cfp: seq<Item>, status0: seq<bool>, n: nat, sp: nat)
    returns (basis: seq<Item>, back: map<Item, seq<Config>>, status: seq<bool>)
    requires |status0| == |cfp| && n < |cfp| && ValidItems(g, cfp) && Distinct(cfp) && Shifts(g, cfp[n], sp)
    requires forall k | 0 <= k < |cfp| && Shifts(g, cfp[k], sp) :: n <= k && !status0[k]
    ensures IsSuccessor(g, s, cfp, sp, basis, back)
    ensures StatusAfter(g, cfp, status0, status, sp)
  {
    hide Collected, IsSuccessor, ValidItems, Distinct;
    basis, back, status := [], map[], status0;
    NothingCollected(g, s, cfp, n, sp);
    for m := n to |cfp|
      invariant Collected(g, s, cfp, m, sp, basis, back)
      invariant m > n ==> basis != []
      invariant |status| == |cfp|
      invariant forall k | 0 <= k < |cfp| :: status[k] == (status0[k] || (n <= k < m && Shifts(g, cfp[k], sp)))
    {
      CollectStep(g, s, cfp, m, sp, basis, back);
      if !status[m] && CanShift(g, cfp[m]) && SymbolAt(g, cfp[m]) == sp {
        status := status[m := true];
        basis := basis + [Advance(cfp[m])];
        back := back[Advance(cfp[m]) := [Config(s, cfp[m])]];
      }
    }
    AllCollected(g, s, cfp, n, sp, basis, back);
  }

  lemma AllCollected(g: Grammar, s: nat, cfp: seq<Item>, n: nat, sp: nat, basis: seq<Item>,
                     back: map<Item, seq<Config>>)
    requires n < |cfp| && Shifts(g, cfp[n], sp) && Collected(g, s, cfp, |cfp|, sp, basis, back) && basis != []
    ensures IsSuccessor(g, s, cfp, sp, basis, back)
  {
    assert cfp[..|cfp|] == cfp;
    assert cfp[n] in cfp;
  }

  /** The basis of the successor on sp, as far as the first m configurations give it. */
  ghost predicate Collected(g: Grammar, s: nat, cfp: seq<Item>, m: nat, sp: nat,
                            basis: seq<Item>, back: map<Item, seq<Config>>)
    requires m <= |cfp|
  {
    && ValidItems(g, basis) && Distinct(basis)
    && Elements(basis) == Goto(g, Elements(cfp[..m]), sp) == back.Keys
    && forall i | i in cfp[..m] && Shifts(g, i, sp) :: Advance(i) in back && back[Advance(i)] == [Config(s, i)]
  }

  lemma NothingCollected(g: Grammar, s: nat, cfp: seq<Item>, n: nat, sp: nat)
    requires n <= |cfp| && forall k | 0 <= k < n :: !Shifts(g, cfp[k], sp)
    ensures Collected(g, s, cfp, n, sp, [], map[])
  {
    assert Goto(g, Elements(cfp[..n]), sp) == {};
  }

  lemma CollectStep(g: Grammar, s: nat, cfp: seq<Item>, m: nat, sp: nat, basis: seq<Item>, back: map<Item, seq<Config>>)
    requires m < |cfp| && ValidItems(g, cfp) && Distinct(cfp) && Collected(g, s, cfp, m, sp, basis, back)
    ensures var j := Advance(cfp[m]);
            if Shifts(g, cfp[m], sp)
            then Collected(g, s, cfp, m + 1, sp, basis + [j], back[j := [Config(s, cfp[m])]])
            else Collected(g, s, cfp, m + 1, sp, basis, back)
  {
    var j := Advance(cfp[m]);
    NotYet(cfp, m);
    GotoStep(g, Elements(cfp[..m]), cfp[m], sp);
    assert cfp[..m + 1] == cfp[..m] + [cfp[m]];
    if Shifts(g, cfp[m], sp) {
      assert j !in Elements(basis);
      assert Elements(basis + [j]) == Elements(basis) + {j};
    }
  }

  lemma GotoStep(g: Grammar, s: set<Item>, i: Item, x: nat)
    ensures Goto(g, s + {i}, x) == Goto(g, s, x) + (if Shifts(g, i, x) then {Advance(i)} else {})
    ensures i !in s ==> Advance(i) !in Goto(g, s, x)
  {
  }

  // ---------------------------------------------------------------- getstate and buildshifts

  ghost function Bases(states: seq<State>): seq<seq<Item>> {
    seq(|states|, s requires 0 <= s < |states| => states[s].bp)
  }

  ghost function Numbers(n: nat): seq<nat> {
    seq(n, i => i)
  }

  /** Every configuration list fits the sorter. */
  ghost predicate Small(g: Grammar) {
    |AllItems(g)| < Pow2(LISTSIZE)
  }

  lemma BuiltNew(g: Grammar, states: seq<State>, fws: map<Config, set<nat>>, fplp: map<Config, seq<Config>>,
                 bplp: map<Config, seq<Config>>, st: State, init: set<nat>, list: seq<Item>,
                 f: map<Item, set<nat>>, p: map<Item, seq<Item>>, back: map<Item, seq<Config>>)
    requires g.Valid() && Built(g, states, fws, fplp, bplp)
    requires SortedItems(g, st.bp) && SortedItems(g, st.cfp) && st.ap == []
    requires ClosureOf(g, st.bp, init, list, f, p) && Elements(list) == Elements(st.cfp)
    requires exists w :: KernelOf(g, w) == Elements(st.bp)
    requires states == [] ==> Elements(st.bp) == StartItems(g)
    requires init == if states == [] then {0} else {}
    requires BackOk(g, states, st.bp, back)
    requires forall s | 0 <= s < |states| :: states[s].bp != st.bp
    ensures var q, new_ := |states|, states + [st];
            && Built(g, new_, fws + LiftSets(q, f), fplp + LiftLinks(q, p), bplp + LiftBack(q, st.cfp, back))
            && LinksGrow(bplp, bplp + LiftBack(q, st.cfp, back))
            && BackLinked(bplp + LiftBack(q, st.cfp, back), q, back)
            && Unseen(g, new_) < Unseen(g, states)
            && Extends(states, new_)
  {
    BasisInItems(g, st.bp);
    StatesNew(g, states, st);
    FwsNew(g, states, fws, st, init, list, f, p);
    FplpNew(g, states, fplp, st, init, list, f, p);
    BplpNew(g, states, bplp, st, back);
    UnseenNew(g, states, st);
  }

  lemma BasesNew(states: seq<State>, st: State)
    ensures Bases(states + [st]) == Bases(states) + [st.bp]
    ensures Numbers(|states + [st]|) == Numbers(|states|) + [|states|]
  {
  }

  lemma BuiltState(g: Grammar, states: seq<State>, fws: map<Config, set<nat>>, fplp: map<Config, seq<Config>>,
                   bplp: map<Config, seq<Config>>, s: nat)
    requires Built(g, states, fws, fplp, bplp) && s < |states|
    ensures StateOk(g, states[s]) && ValidItems(g, states[s].cfp) && Distinct(states[s].cfp)
  {
    SortedDistinct(g, states[s].cfp);
  }

  lemma ClosureFits(g: Grammar, basis: seq<Item>, init: set<nat>, list: seq<Item>,
                    f: map<Item, set<nat>>, p: map<Item, seq<Item>>)
    requires ClosureOf(g, basis, init, list, f, p) && ValidItems(g, basis) && Small(g)
    ensures ValidItems(g, list) && Distinct(list) && |list| < Pow2(LISTSIZE)
  {
    BasisInItems(g, basis);
    DistinctBound(list, AllItems(g));
  }

  lemma SortedDistinct(g: Grammar, s: seq<Item>)
    requires SortedItems(g, s)
    ensures Distinct(s) && ValidItems(g, s)
  {
    forall i, j | 0 <= i < j < |s|
      ensures s[i] != s[j]
    {
      assert ItemBefore(g, s[i], s[j]);
    }
  }

  /** `Plink_copy` for every configuration of a basis. */
  method PlinkCopy(bplp0: map<Config, seq<Config>>, bp: seq<Item>, q: nat, back: map<Item, seq<Config>>)
    returns (bplp: map<Config, seq<Config>>)
    requires Distinct(bp) && back.Keys == Elements(bp)
    requires forall i | i in bp :: Config(q, i) in bplp0 && i in back
    ensures bplp.Keys == bplp0.Keys
    ensures forall c | c in bplp0 ::
              bplp[c] == if c.stp == q && c.item in back then bplp0[c] + back[c.item] else bplp0[c]
  {
    bplp := bplp0;
    for k := 0 to |bp|
      invariant bplp.Keys == bplp0.Keys
      invariant forall c | c in bplp0 ::
          bplp[c] == if c.stp == q && c.item in Elements(bp[..k]) then bplp0[c] + back[c.item] else bplp0[c]
    {
      var c := Config(q, bp[k]);
      NotYet(bp, k);
      bplp := bplp[c := bplp[c] + back[bp[k]]];
    }
    assert bp[..|bp|] == bp;
  }

  class StateBuilder {
    const g: Grammar
    const lambda: seq<bool>
    const first: seq<set<nat>>
    const x3a: StateTable
    var states: seq<State>
    var fws: map<Config, set<nat>>
    var fplp: map<Config, seq<Config>>
    var bplp: map<Config, seq<Config>>

    ghost predicate Valid()
      reads this, x3a
    {
      && g.Valid() && Small(g) && LambdaExact(g, lambda) && FirstExact(g, first)
      && x3a.g == g && x3a.Valid()
      && x3a.Keys() == Bases(states)
      && x3a.Values() == Numbers(|states|)
      && Built(g, states, fws, fplp, bplp)
    }

    constructor (g: Grammar, lambda: seq<bool>, first: seq<set<nat>>)
      requires g.Valid() && Small(g) && LambdaExact(g, lambda) && FirstExact(g, first)
      ensures Valid() && fresh(x3a) && states == []
      ensures this.g == g && this.lambda == lambda && this.first == first
    {
      this.g, this.lambda, this.first := g, lambda, first;
      x3a := new StateTable(g);
      states, fws, fplp, bplp := [], map[], map[], map[];
    }

    /** Start configurations make the basis of state 0, with "$" in their follow sets. */
    method FindStates()
      requires Valid() && states == []
      requires exists r | 0 <= r < |g.rules| :: g.rules[r].lhs == g.start
      modifies this, x3a
      ensures Valid() && Canonical(g, states)
      ensures FwsOk(g, states, fws) && FplpOk(g, states, fplp) && BplpExact(g, states, bplp)
    {
      var basis: seq<Item>, back: map<Item, seq<Config>> := [], map[];
      for r := 0 to |g.rules|
        invariant ValidItems(g, basis) && Distinct(basis) && Elements(basis) == back.Keys
        invariant forall i :: i in basis <==> i.dot == 0 && i.rule < r && g.rules[i.rule].lhs == g.start
        invariant forall i | i in back :: back[i] == []
      {
        if g.rules[r].lhs == g.start {
          assert Item(r, 0) !in basis;
          assert Elements(basis + [Item(r, 0)]) == Elements(basis) + {Item(r, 0)};
          basis := basis + [Item(r, 0)];
          back := back[Item(r, 0) := []];
        }
      }
      assert Elements(basis) == StartItems(g);
      assert KernelOf(g, []) == Elements(basis);
      var q := GetState(basis, {0}, back);
      CompleteCollection(g, states, fws, fplp, bplp);
    }

    /** The state with this basis: a known one takes over the back links, a new one is built and
        all its successors with it. */
    method GetState(basis: seq<Item>, init: set<nat>, back: map<Item, seq<Config>>) returns (q: nat)
      requires Valid() && ValidItems(g, basis) && Distinct(basis)
      requires exists w :: KernelOf(g, w) == Elements(basis)
      requires states == [] ==> Elements(basis) == StartItems(g)
      requires init == if states == [] then {0} else {}
      requires BackOk(g, states, basis, back)
      modifies this, x3a
      ensures Valid()
      ensures Extends(old(states), states) && LinksGrow(old(bplp), bplp)
      ensures q < |states| && Kernel(states[q]) == Elements(basis) && BackLinked(bplp, q, back)
      ensures LinkedFrom(g, states, bplp, |old(states)|)
      decreases Unseen(g, states), 0
    {
      hide Built, Table, LambdaExact, FirstExact, LinksGrow, BackLinked, LinkedFrom, BackOk;
      BasisInItems(g, basis);
      DistinctBound(basis, AllItems(g));
      var bp := SortItems(g, basis);
      BackSorted(g, states, basis, bp, back);
      var found := x3a.Find(bp);
      if found.Some? {
        q := found.value;
        FoundState(bp, q);
        AddBacklinks(bp, q, back);
        NoNewStates(g, states, bplp);
      } else {
        q := |states|;
        NewState(bp, init, back);
        ghost var built, b0 := states, bplp;
        BuildShifts(q);
        NewStateLinked(g, old(states), old(bplp), built, b0, states, bplp, back);
      }
    }

    lemma FoundState(bp: seq<Item>, q: nat)
      requires Valid() && bp in x3a.Keys()
      requires forall i | 0 <= i < x3a.count && x3a.Keys()[i] == bp ::
               StateTables.Some(q) == StateTables.Some(x3a.Values()[i])
      ensures q < |states| && states[q].bp == bp
    {
      var i :| 0 <= i < |x3a.Keys()| && x3a.Keys()[i] == bp;
      assert x3a.Keys()[i] == Bases(states)[i] && x3a.Values()[i] == Numbers(|states|)[i];
    }

    /** `Plink_copy` for every configuration of the basis. */
    method AddBacklinks(bp: seq<Item>, q: nat, back: map<Item, seq<Config>>)
      requires Valid() && q < |states| && states[q].bp == bp
      requires BackOk(g, states, bp, back)
      modifies this`bplp
      ensures Valid()
      ensures LinksGrow(old(bplp), bplp) && BackLinked(bplp, q, back)
    {
      hide *;
      ValidFacts();
      TableFacts();
      BasisKnown(g, states, fws, fplp, bplp, bp, q, back);
      ghost var was := bplp;
      bplp := PlinkCopy(bplp, bp, q, back);
      LinksAdded(g, states, fws, fplp, was, bp, q, back, bplp);
      MadeValid();
    }

    /** A new state: its closure, the follow sets and links inside it, and an entry in the table. */
    method NewState(bp: seq<Item>, init: set<nat>, back: map<Item, seq<Config>>)
      requires Valid() && SortedItems(g, bp) && bp !in x3a.Keys()
      requires exists w :: KernelOf(g, w) == Elements(bp)
      requires states == [] ==> Elements(bp) == StartItems(g)
      requires init == if states == [] then {0} else {}
      requires BackOk(g, states, bp, back)
      modifies this, x3a
      ensures Valid()
      ensures |states| == |old(states)| + 1 && Extends(old(states), states)
      ensures states[|old(states)|].bp == bp && states[|old(states)|].ap == []
      ensures LinksGrow(old(bplp), bplp) && BackLinked(bplp, |old(states)|, back)
      ensures Unseen(g, states) < old(Unseen(g, states))
    {
      hide *;
      ValidFacts();
      SortedDistinct(g, bp);
      var list, f, p := ConfiglistClosure(g, lambda, first, bp, init);
      ClosureFits(g, bp, init, list, f, p);
      var cfp := SortItems(g, list);
      var q, st := |states|, State(bp, cfp, []);
      NotInTable(bp);
      BuiltNew(g, states, fws, fplp, bplp, st, init, list, f, p, back);
      Commit(st, fws + LiftSets(q, f), fplp + LiftLinks(q, p), bplp + LiftBack(q, cfp, back));
    }

    method Commit(st: State, fws': map<Config, set<nat>>, fplp': map<Config, seq<Config>>,
                  bplp': map<Config, seq<Config>>)
      requires Valid() && ValidItems(g, st.bp) && st.bp !in x3a.Keys()
      requires Built(g, states + [st], fws', fplp', bplp')
      modifies this, x3a
      ensures Valid()
      ensures states == old(states) + [st] && fws == fws' && fplp == fplp' && bplp == bplp'
    {
      hide Built, Table, LambdaExact, FirstExact, Bases, Numbers;
      BasesNew(states, st);
      var ok := x3a.Insert(|states|, st.bp);
      states, fws, fplp, bplp := states + [st], fws', fplp', bplp';
    }

    lemma ValidFacts()
      requires Valid()
      ensures g.Valid() && Small(g) && LambdaExact(g, lambda) && FirstExact(g, first)
      ensures Built(g, states, fws, fplp, bplp)
    {
    }

    lemma TableFacts()
      requires Valid()
      ensures x3a.g == g && x3a.Valid() && x3a.count <= |x3a.key| && x3a.count <= |x3a.data|
      ensures x3a.Keys() == Bases(states) && x3a.Values() == Numbers(|states|)
    {
    }

    lemma MadeValid()
      requires g.Valid() && Small(g) && LambdaExact(g, lambda) && FirstExact(g, first)
      requires x3a.g == g && x3a.Valid() && x3a.count <= |x3a.key| && x3a.count <= |x3a.data|
      requires x3a.Keys() == Bases(states) && x3a.Values() == Numbers(|states|)
      requires Built(g, states, fws, fplp, bplp)
      ensures Valid()
    {
    }

    lemma NotInTable(bp: seq<Item>)
      requires Valid() && bp !in x3a.Keys()
      ensures forall s | 0 <= s < |states| :: states[s].bp != bp
    {
      forall s | 0 <= s < |states|
        ensures states[s].bp != bp
      {
        assert x3a.Keys()[s] == Bases(states)[s];
      }
    }

    /** The successors of state s, one for each symbol behind a dot.  `status` marks the
        configurations that have contributed to one. */
    method BuildShifts(s: nat)
      requires Valid() && s < |states| && states[s].ap == []
      modifies this, x3a
      ensures Valid()
      ensures Advanced(g, old(states), old(bplp), states, bplp, s)
      ensures LinkedState(g, states, bplp, s)
      decreases Unseen(g, states), 2
    {
      var cfp := states[s].cfp;
      var status := seq(|cfp|, i => false);
      ghost var done: set<nat> := {};
      hide *;
      NothingShifted(g, states, bplp, s, status);
      for n := 0 to |cfp|
        invariant Valid() && |status| == |cfp|
        invariant Progress(g, old(states), old(bplp), states, bplp, s, cfp, status, done, n)
      {
        ProgressFacts(g, old(states), old(bplp), states, bplp, s, cfp, status, done, n);
        if !status[n] && CanShift(g, cfp[n]) {
          ghost var before, b0 := states, bplp;
          ghost var status0, done0 := status, done;
          status, done := Shift(s, cfp, status, n, done);
          ProgressStep(g, old(states), old(bplp), before, b0, states, bplp, s, cfp, status0, status, done0, done, n);
        } else {
          ProgressSkip(g, old(states), old(bplp), states, bplp, s, cfp, status, done, n);
        }
      }
      AllShifted(g, old(states), old(bplp), states, bplp, s, cfp, status, done);
    }

    /** One successor: all configurations with the symbol behind the dot of number n. */
    method Shift(s: nat, cfp: seq<Item>, status0: seq<bool>, n: nat, ghost done0: set<nat>)
      returns (status: seq<bool>, ghost done: set<nat>)
      requires Valid() && s < |states| && states[s].cfp == cfp && n < |cfp|
      requires Marked(g, cfp, status0, done0) && ShiftedFor(g, states, bplp, s, done0)
      requires CanShift(g, cfp[n]) && !status0[n]
      requires forall k | 0 <= k < n && CanShift(g, cfp[k]) :: status0[k]
      modifies this, x3a
      ensures Valid()
      ensures Advanced(g, old(states), old(bplp), states, bplp, s)
      ensures ShiftedFor(g, states, bplp, s, done)
      ensures Marked(g, cfp, status, done)
      ensures |status| == |cfp| && status[n] && forall k | 0 <= k < |cfp| && status0[k] :: status[k]
      decreases Unseen(g, states), 1
    {
      hide *;
      var sp := SymbolAt(g, cfp[n]);
      var basis, back;
      StateFacts(s);
      NotMarked(g, cfp, status0, n, done0);
      basis, back, status := Successor(g, s, cfp, status0, n, sp);
      done := done0 + {sp};
      MarkedMore(g, cfp, status0, status, done0, sp);
      SuccessorOk(g, states, s, sp, basis, back);
      Connect(s, sp, basis, back, done0);
    }

    lemma StateFacts(s: nat)
      requires Valid() && s < |states|
      ensures g.Valid() && StateOk(g, states[s]) && ValidItems(g, states[s].cfp) && Distinct(states[s].cfp)
    {
      BuiltState(g, states, fws, fplp, bplp, s);
    }

    /** Find or build the successor and add the shift to it. */
    method Connect(s: nat, sp: nat, basis: seq<Item>, back: map<Item, seq<Config>>, ghost done: set<nat>)
      requires Valid() && s < |states| && ShiftedFor(g, states, bplp, s, done) && sp !in done
      requires IsSuccessor(g, s, states[s].cfp, sp, basis, back) && BackOk(g, states, basis, back)
      requires exists w :: KernelOf(g, w) == Elements(basis)
      modifies this, x3a
      ensures Valid()
      ensures Advanced(g, old(states), old(bplp), states, bplp, s)
      ensures ShiftedFor(g, states, bplp, s, done + {sp})
      decreases Unseen(g, states), 1, 0
    {
      hide Built, Table, LambdaExact, FirstExact, Bases, Numbers, ShiftedFor, Advanced, LinksGrow, BackLinked, BackOk,
        LinkedFrom, Extends, Goto, KernelOf, AllItems, Unseen, StateOk;
      ghost var states0, bplp0 := states, bplp;
      var newstp := GetState(basis, {}, back);
      ExtendsAt(states0, states, s);
      ShiftedStays(g, states0, states, bplp0, bplp, s, done);
      ShiftAdded(g, states, fws, fplp, bplp, s, done, sp, newstp, back);
      ActionAdvances(g, states0, bplp0, states, bplp, s, Action(sp, SHIFT, newstp));
      states := AddAction(states, s, Action(sp, SHIFT, newstp));
    }
  }

  /** `status` marks the configurations with a symbol of `done` behind the dot. */
  ghost predicate Marked(g: Grammar, cfp: seq<Item>, status: seq<bool>, done: set<nat>) {
    && |status| == |cfp|
    && forall k | 0 <= k < |cfp| :: status[k] <==> CanShift(g, cfp[k]) && SymbolAt(g, cfp[k]) in done
  }

  /** The effect of building shifts of state s: new states are linked, other states untouched. */
  ghost predicate Advanced(g: Grammar, old_: seq<State>, b0: map<Config, seq<Config>>,
                           new_: seq<State>, b1: map<Config, seq<Config>>, s: nat) {
    && s < |old_| <= |new_|
    && (forall t | 0 <= t < |old_| && t != s :: new_[t] == old_[t])
    && new_[s].bp == old_[s].bp && new_[s].cfp == old_[s].cfp
    && LinksGrow(b0, b1)
    && LinkedFrom(g, new_, b1, |old_|)
  }

  /** The loop of `buildshifts` before configuration n. */
  ghost predicate Progress(g: Grammar, old_: seq<State>, b0: map<Config, seq<Config>>, new_: seq<State>,
                           b1: map<Config, seq<Config>>, s: nat, cfp: seq<Item>, status: seq<bool>, done: set<nat>,
                           n: nat) {
    && Advanced(g, old_, b0, new_, b1, s)
    && s < |new_| && new_[s].cfp == cfp
    && ShiftedFor(g, new_, b1, s, done)
    && Marked(g, cfp, status, done)
    && n <= |cfp| && forall k | 0 <= k < n && CanShift(g, cfp[k]) :: status[k]
  }

  lemma ProgressFacts(g: Grammar, old_: seq<State>, b0: map<Config, seq<Config>>, new_: seq<State>,
                      b1: map<Config, seq<Config>>, s: nat, cfp: seq<Item>, status: seq<bool>, done: set<nat>, n: nat)
    requires Progress(g, old_, b0, new_, b1, s, cfp, status, done, n)
    ensures s < |new_| && new_[s].cfp == cfp && ShiftedFor(g, new_, b1, s, done) && Marked(g, cfp, status, done)
    ensures |status| == |cfp| && n <= |cfp| && forall k | 0 <= k < n && CanShift(g, cfp[k]) :: status[k]
    ensures Unseen(g, new_) <= Unseen(g, old_)
  {
    UnseenShrinks(g, old_, new_);
  }

  lemma ProgressStep(g: Grammar, old_: seq<State>, b0: map<Config, seq<Config>>, mid: seq<State>,
                     bm: map<Config, seq<Config>>, new_: seq<State>, b1: map<Config, seq<Config>>, s: nat,
                     cfp: seq<Item>,
                     st0: seq<bool>, st1: seq<bool>, done0: set<nat>, done: set<nat>, n: nat)
    requires Progress(g, old_, b0, mid, bm, s, cfp, st0, done0, n) && n < |cfp|
    requires Advanced(g, mid, bm, new_, b1, s) && ShiftedFor(g, new_, b1, s, done) && Marked(g, cfp, st1, done)
    requires |st1| == |cfp| && st1[n] && forall k | 0 <= k < |cfp| && st0[k] :: st1[k]
    ensures Progress(g, old_, b0, new_, b1, s, cfp, st1, done, n + 1)
  {
    AdvancedTransitive(g, old_, b0, mid, bm, new_, b1, s);
  }

  lemma ProgressSkip(g: Grammar, old_: seq<State>, b0: map<Config, seq<Config>>, new_: seq<State>,
                     b1: map<Config, seq<Config>>, s: nat, cfp: seq<Item>, status: seq<bool>, done: set<nat>, n: nat)
    requires Progress(g, old_, b0, new_, b1, s, cfp, status, done, n) && n < |cfp|
    requires status[n] || !CanShift(g, cfp[n])
    ensures Progress(g, old_, b0, new_, b1, s, cfp, status, done, n + 1)
  {
  }

  lemma NothingShifted(g: Grammar, states: seq<State>, bplp: map<Config, seq<Config>>, s: nat, status: seq<bool>)
    requires s < |states| && states[s].ap == []
    requires |status| == |states[s].cfp| && forall k | 0 <= k < |status| :: !status[k]
    ensures Progress(g, states, bplp, states, bplp, s, states[s].cfp, status, {}, 0)
  {
  }

  lemma NoNewStates(g: Grammar, states: seq<State>, bplp: map<Config, seq<Config>>)
    ensures LinkedFrom(g, states, bplp, |states|)
  {
  }

  lemma BackSorted(g: Grammar, states: seq<State>, basis: seq<Item>, bp: seq<Item>, back: map<Item, seq<Config>>)
    requires Elements(basis) == Elements(bp) && BackOk(g, states, basis, back)
    ensures BackOk(g, states, bp, back)
  {
  }

  /** A new state and its successors, seen from before it was added. */
  lemma NewStateLinked(g: Grammar, s0: seq<State>, b0: map<Config, seq<Config>>, s1: seq<State>,
                       b1: map<Config, seq<Config>>, s2: seq<State>, b2: map<Config, seq<Config>>,
                       back: map<Item, seq<Config>>)
    requires |s1| == |s0| + 1 && Extends(s0, s1) && LinksGrow(b0, b1) && BackLinked(b1, |s0|, back)
    requires Advanced(g, s1, b1, s2, b2, |s0|) && LinkedState(g, s2, b2, |s0|)
    ensures Extends(s0, s2) && LinksGrow(b0, b2) && BackLinked(b2, |s0|, back)
    ensures LinkedFrom(g, s2, b2, |s0|)
    ensures s2[|s0|].bp == s1[|s0|].bp
  {
    LinksGrowTransitive(b0, b1, b2);
    BackLinkedGrows(b1, b2, |s0|, back);
  }

  lemma NotMarked(g: Grammar, cfp: seq<Item>, status: seq<bool>, n: nat, done: set<nat>)
    requires Marked(g, cfp, status, done) && n < |cfp| && CanShift(g, cfp[n]) && !status[n]
    requires forall k | 0 <= k < n && CanShift(g, cfp[k]) :: status[k]
    ensures |status| == |cfp| && SymbolAt(g, cfp[n]) !in done && Shifts(g, cfp[n], SymbolAt(g, cfp[n]))
    ensures forall k | 0 <= k < |cfp| && Shifts(g, cfp[k], SymbolAt(g, cfp[n])) :: n <= k && !status[k]
  {
  }

  lemma MarkedMore(g: Grammar, cfp: seq<Item>, s0: seq<bool>, s1: seq<bool>, done: set<nat>, x: nat)
    requires Marked(g, cfp, s0, done) && StatusAfter(g, cfp, s0, s1, x)
    ensures Marked(g, cfp, s1, done + {x}) && |s1| == |cfp|
    ensures forall k | 0 <= k < |cfp| :: s0[k] || Shifts(g, cfp[k], x) ==> s1[k]
  {
  }

  lemma ExtendsAt(old_: seq<State>, new_: seq<State>, s: nat)
    requires Extends(old_, new_) && s < |old_|
    ensures s < |new_| && new_[s] == old_[s]
  {
  }

  lemma AdvancedTransitive(g: Grammar, s0: seq<State>, b0: map<Config, seq<Config>>, s1: seq<State>,
                           b1: map<Config, seq<Config>>, s2: seq<State>, b2: map<Config, seq<Config>>, s: nat)
    requires Advanced(g, s0, b0, s1, b1, s) && Advanced(g, s1, b1, s2, b2, s)
    ensures Advanced(g, s0, b0, s2, b2, s)
    ensures Unseen(g, s2) <= Unseen(g, s1) <= Unseen(g, s0)
    ensures s < |s2| && s2[s].cfp == s1[s].cfp
  {
    UnseenShrinks(g, s0, s1);
    UnseenShrinks(g, s1, s2);
    LinksGrowTransitive(b0, b1, b2);
    LinkedFromStays(g, s1, s2, b1, b2, |s0|);
  }

  lemma ActionAdvances(g: Grammar, s0: seq<State>, b0: map<Config, seq<Config>>, s1: seq<State>,
                       b1: map<Config, seq<Config>>, s: nat, a: Action)
    requires s < |s0| && Extends(s0, s1) && LinksGrow(b0, b1) && LinkedFrom(g, s1, b1, |s0|)
    ensures Advanced(g, s0, b0, AddAction(s1, s, a), b1, s)
    ensures |AddAction(s1, s, a)| == |s1| && Bases(AddAction(s1, s, a)) == Bases(s1)
  {
    var s2 := AddAction(s1, s, a);
    forall t | |s0| <= t < |s2|
      ensures LinkedState(g, s2, b1, t)
    {
      LinkedStays(g, s1, s2, b1, b1, t);
    }
  }

  lemma AllShifted(g: Grammar, old_: seq<State>, b0: map<Config, seq<Config>>, states: seq<State>,
                   bplp: map<Config, seq<Config>>, s: nat, cfp: seq<Item>, status: seq<bool>, done: set<nat>)
    requires Progress(g, old_, b0, states, bplp, s, cfp, status, done, |cfp|)
    ensures s < |states| && LinkedState(g, states, bplp, s) && Advanced(g, old_, b0, states, bplp, s)
  {
    forall i | i in states[s].cfp && CanShift(g, i)
      ensures LinkedItem(g, states, bplp, s, i)
    {
      var k :| 0 <= k < |states[s].cfp| && states[s].cfp[k] == i;
      assert status[k];
    }
  }

  lemma LinksGrowTransitive(a: map<Config, seq<Config>>, b: map<Config, seq<Config>>, c: map<Config, seq<Config>>)
    requires LinksGrow(a, b) && LinksGrow(b, c)
    ensures LinksGrow(a, c)
  {
  }

  lemma BackLinkedGrows(a: map<Config, seq<Config>>, b: map<Config, seq<Config>>, q: nat, back: map<Item, seq<Config>>)
    requires LinksGrow(a, b) && BackLinked(a, q, back)
    ensures BackLinked(b, q, back)
  {
  }

  lemma LinkedFromStays(g: Grammar, old_: seq<State>, new_: seq<State>, b0: map<Config, seq<Config>>,
                        b1: map<Config, seq<Config>>, from: nat)
    requires LinkedFrom(g, old_, b0, from) && LinkedFrom(g, new_, b1, |old_|) && LinksGrow(b0, b1)
    requires forall s | from <= s < |old_| && s < |new_| :: new_[s] == old_[s]
    ensures LinkedFrom(g, new_, b1, from)
  {
    forall s | from <= s < |new_|
      ensures LinkedState(g, new_, b1, s)
    {
      if s < |old_| { LinkedStays(g, old_, new_, b0, b1, s); }
    }
  }

  lemma SuccessorOk(g: Grammar, states: seq<State>, s: nat, sp: nat, basis: seq<Item>, back: map<Item, seq<Config>>)
    requires s < |states| && StateOk(g, states[s])
    requires IsSuccessor(g, s, states[s].cfp, sp, basis, back)
    ensures BackOk(g, states, basis, back)
    ensures exists w :: KernelOf(g, w) == Elements(basis)
  {
    forall j, d | j in back && d in back[j]
      ensures ComesFrom(g, states, Elements(basis), d, j)
    {
      var i :| i in ItemsOf(states[s]) && Shifts(g, i, sp) && j == Advance(i);
      assert d == Config(s, i);
    }
    var w :| KernelOf(g, w) == Kernel(states[s]);
    assert (w + [sp])[..|w|] == w;
    assert KernelOf(g, w + [sp]) == Elements(basis);
  }

  /** Once every state is linked the collection is canonical and the links are exact. */
  lemma CompleteCollection(g: Grammar, states: seq<State>, fws: map<Config, set<nat>>,
                           fplp: map<Config, seq<Config>>, bplp: map<Config, seq<Config>>)
    requires g.Valid() && states != [] && Built(g, states, fws, fplp, bplp) && LinkedFrom(g, states, bplp, 0)
    ensures Canonical(g, states) && BplpExact(g, states, bplp)
  {
    forall s | 0 <= s < |states|
      ensures ShiftsComplete(g, states, s)
    {
      assert LinkedState(g, states, bplp, s);
      forall i | i in states[s].cfp && CanShift(g, i)
        ensures HasShift(states[s].ap, SymbolAt(g, i))
      {
        assert LinkedItem(g, states, bplp, s, i);
      }
    }
    forall c, d | c in bplp && BackLink(g, states, d, c)
      ensures d in bplp[c]
    {
      assert LinkedState(g, states, bplp, d.stp) && LinkedItem(g, states, bplp, d.stp, d.item);
      var a :| a in states[d.stp].ap && a.sp == SymbolAt(g, d.item) && IsLinked(bplp, d, Config(a.x, Advance(d.item)));
      assert ActionsOk(g, states, d.stp) && ShiftOk(g, states, d.stp, a);
      assert StateOk(g, states[a.x]) && StateOk(g, states[c.stp]);
      SameKernel(g, states, a.x, c.stp);
    }
  }
}
