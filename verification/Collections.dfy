/** What `FindStates` builds: the canonical collection of LR(0) states, with the initial
    follow sets of their configurations and the links along which these propagate. */
module Collections {
  import opened Grammars
  import opened FirstSets
  import opened Items
  import opened Actions

  /** The basis, the closure and the actions of a state; its number is its position. */
  datatype State = State(bp: seq<Item>, cfp: seq<Item>, ap: seq<Action>)

  /** A configuration is identified by its state and its item. */
  datatype Config = Config(stp: nat, item: Item)

  ghost function Kernel(st: State): set<Item> { Elements(st.bp) }

  ghost function ItemsOf(st: State): set<Item> { Elements(st.cfp) }

  function SymbolAt(g: Grammar, i: Item): nat {
    if i.rule < |g.rules| && i.dot < |g.rules[i.rule].rhs| then g.rules[i.rule].rhs[i.dot] else 0
  }

  predicate CanShift(g: Grammar, i: Item) {
    i.rule < |g.rules| && i.dot < |g.rules[i.rule].rhs|
  }

  // ---------------------------------------------------------------- states and transitions

  ghost predicate StateOk(g: Grammar, st: State) {
    && SortedItems(g, st.bp)
    && SortedItems(g, st.cfp)
    && ItemsOf(st) == Closure(g, Kernel(st))
    && exists w :: KernelOf(g, w) == Kernel(st)
  }

  ghost predicate ShiftOk(g: Grammar, states: seq<State>, s: nat, a: Action)
    requires s < |states|
  {
    && a.typ == SHIFT
    && a.x < |states|
    && (exists i :: i in states[s].cfp && Shifts(g, i, a.sp))
    && Kernel(states[a.x]) == Goto(g, ItemsOf(states[s]), a.sp)
  }

  ghost predicate OnePerSymbol(ap: seq<Action>) {
    forall i, j | 0 <= i < j < |ap| :: ap[i].sp != ap[j].sp
  }

  ghost predicate ActionsOk(g: Grammar, states: seq<State>, s: nat)
    requires s < |states|
  {
    && OnePerSymbol(states[s].ap)
    && forall a | a in states[s].ap :: ShiftOk(g, states, s, a)
  }

  ghost predicate DistinctKernels(states: seq<State>) {
    forall s, t | 0 <= s < |states| && 0 <= t < |states| && states[s].bp == states[t].bp :: s == t
  }

  /** Every symbol behind a dot of state s has its shift. */
  ghost predicate ShiftsComplete(g: Grammar, states: seq<State>, s: nat)
    requires s < |states|
  {
    forall i | i in states[s].cfp && CanShift(g, i) :: HasShift(states[s].ap, SymbolAt(g, i))
  }

  ghost predicate HasShift(ap: seq<Action>, x: nat) {
    exists a :: a in ap && a.sp == x
  }

  /** The canonical collection: state 0 starts the grammar, every state is a reachable kernel
      with its closure, no kernel occurs twice, and the shifts are exactly the gotos. */
  ghost predicate Canonical(g: Grammar, states: seq<State>) {
    && |states| > 0
    && Kernel(states[0]) == StartItems(g)
    && DistinctKernels(states)
    && forall s | 0 <= s < |states| ::
         StateOk(g, states[s]) && ActionsOk(g, states, s) && ShiftsComplete(g, states, s)
  }

  // ---------------------------------------------------------------- follow sets and links

  /** What configuration i contributes at once to the follow set of j in its state. */
  ghost predicate Contributes(g: Grammar, i: Item, j: Item, a: nat) {
    Expands(g, i, j) && a < g.nterminal && FirstSeq(g, Tail(g, i), a)
  }

  /** The follow set of i belongs to that of j, in the same state. */
  ghost predicate Propagates(g: Grammar, i: Item, j: Item) {
    Expands(g, i, j) && NullableSeq(g, Tail(g, i))
  }

  ghost predicate Generated(g: Grammar, states: seq<State>, c: Config, a: nat)
    requires c.stp < |states|
  {
    || (c.stp == 0 && c.item in states[0].bp && a == 0)
    || exists i :: i in states[c.stp].cfp && Contributes(g, i, c.item, a)
  }

  /** c is d with its dot moved, in the state reached from that of d. */
  ghost predicate BackLink(g: Grammar, states: seq<State>, d: Config, c: Config) {
    && d.stp < |states| && c.stp < |states|
    && d.item in states[d.stp].cfp
    && CanShift(g, d.item)
    && c.item == Advance(d.item)
    && Kernel(states[c.stp]) == Goto(g, ItemsOf(states[d.stp]), SymbolAt(g, d.item))
  }

  ghost predicate IsConfig(states: seq<State>, c: Config) {
    c.stp < |states| && c.item in states[c.stp].cfp
  }

  ghost predicate Covers<T>(states: seq<State>, m: map<Config, T>) {
    forall c :: c in m <==> IsConfig(states, c)
  }

  ghost predicate FwsOk(g: Grammar, states: seq<State>, fws: map<Config, set<nat>>) {
    && Covers(states, fws)
    && forall c, a: nat | c in fws :: a in fws[c] <==> Generated(g, states, c, a)
  }

  ghost predicate FplpOk(g: Grammar, states: seq<State>, fplp: map<Config, seq<Config>>) {
    && Covers(states, fplp)
    && forall c, d | c in fplp :: d in fplp[c] <==> d.stp == c.stp && Propagates(g, c.item, d.item)
  }

  ghost predicate BplpSound(g: Grammar, states: seq<State>, bplp: map<Config, seq<Config>>) {
    && Covers(states, bplp)
    && forall c, d | c in bplp && d in bplp[c] :: BackLink(g, states, d, c)
  }

  /** Every configuration of state s that can shift is linked to from where it goes. */
  ghost predicate LinkedState(g: Grammar, states: seq<State>, bplp: map<Config, seq<Config>>, s: nat)
    requires s < |states|
  {
    forall i | i in states[s].cfp && CanShift(g, i) :: LinkedItem(g, states, bplp, s, i)
  }

  ghost predicate LinkedItem(g: Grammar, states: seq<State>, bplp: map<Config, seq<Config>>, s: nat, i: Item)
    requires s < |states|
  {
    exists a :: a in states[s].ap && a.sp == SymbolAt(g, i) && IsLinked(bplp, Config(s, i), Config(a.x, Advance(i)))
  }

  ghost predicate IsLinked(bplp: map<Config, seq<Config>>, d: Config, c: Config) {
    c in bplp && d in bplp[c]
  }

  /** The whole back-link table, once every state is built. */
  ghost predicate BplpExact(g: Grammar, states: seq<State>, bplp: map<Config, seq<Config>>) {
    && Covers(states, bplp)
    && forall c, d | c in bplp :: d in bplp[c] <==> BackLink(g, states, d, c)
  }

  // ---------------------------------------------------------------- consequences

  lemma KernelInItems(g: Grammar, st: State)
    requires StateOk(g, st)
    ensures Kernel(st) <= ItemsOf(st) <= AllItems(g)
    ensures Closed(g, ItemsOf(st))
  {
    assert Kernel(st) <= AllItems(g);
    ClosureIsClosed(g, Kernel(st));
  }

  lemma SameKernel(g: Grammar, states: seq<State>, s: nat, t: nat)
    requires g.Valid() && DistinctKernels(states) && s < |states| && t < |states|
    requires StateOk(g, states[s]) && StateOk(g, states[t]) && Kernel(states[s]) == Kernel(states[t])
    ensures s == t
  {
    SortedItemsUnique(g, states[s].bp, states[t].bp);
  }

  /** A reachable kernel that is not empty has its state. */
  lemma {:induction false} EveryKernel(g: Grammar, states: seq<State>, w: seq<nat>) returns (s: nat)
    requires g.Valid() && Canonical(g, states) && KernelOf(g, w) != {}
    ensures s < |states| && Kernel(states[s]) == KernelOf(g, w)
  {
    if w == [] {
      s := 0;
    } else {
      var w', x := w[..|w| - 1], w[|w| - 1];
      if KernelOf(g, w') == {} {
        assert Closed(g, {});
        ClosureIsLeast(g, {}, {});
      }
      var t := EveryKernel(g, states, w');
      assert StateOk(g, states[t]) && ShiftsComplete(g, states, t) && ActionsOk(g, states, t);
      assert ItemsOf(states[t]) == Closure(g, KernelOf(g, w'));
      var j :| j in KernelOf(g, w);
      var i :| i in ItemsOf(states[t]) && Shifts(g, i, x) && j == Advance(i);
      assert CanShift(g, i) && SymbolAt(g, i) == x;
      var a :| a in states[t].ap && a.sp == x;
      assert ShiftOk(g, states, t, a);
      s := a.x;
    }
  }
}
