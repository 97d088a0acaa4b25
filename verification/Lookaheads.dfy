/** What may follow a configuration on one particular stack, and why the LALR(1) follow sets cover
    it: the exact lookahead that a run without errors needs. */
module Lookaheads {
  import opened Grammars
  import opened FirstSets
  import opened Items
  import opened Actions
  import opened Collections
  import opened FollowSets
  import opened Machines
  import opened Soundness

  // ---------------------------------------------------------------- strings

  function Rest(g: Grammar, i: Item): seq<nat> {
    if i.rule < |g.rules| && i.dot <= |g.rules[i.rule].rhs| then g.rules[i.rule].rhs[i.dot..] else []
  }

  lemma RestCons(g: Grammar, i: Item)
    requires g.Valid() && CanShift(g, i)
    ensures Rest(g, i) == [SymbolAt(g, i)] + Tail(g, i)
    ensures SymbolAt(g, i) < g.NSymbol() && forall k | 0 <= k < |Tail(g, i)| :: Tail(g, i)[k] < g.NSymbol()
  {
    assert g.ValidRule(g.rules[i.rule]);
  }

  lemma FirstHead(g: Grammar, x: nat, beta: seq<nat>, a: nat)
    requires First(g, x, a) && forall k | 0 <= k < |beta| :: beta[k] < g.NSymbol()
    ensures FirstSeq(g, [x] + beta, a)
  {
    var w :| Derives(g, x, w) && w != [] && w[0] == a;
    var t :| ValidTree(g, t) && Root(g, t) == x && Yield(t) == w;
    var ts := TreeAndRest(g, t, x, beta);
  }

  lemma FirstBehind(g: Grammar, x: nat, beta: seq<nat>, a: nat)
    requires Nullable(g, x) && FirstSeq(g, beta, a)
    ensures FirstSeq(g, [x] + beta, a)
  {
    var t :| ValidTree(g, t) && Root(g, t) == x && Yield(t) == [];
    var ts :| ForestOf(g, ts, beta) && YieldAll(ts) != [] && YieldAll(ts)[0] == a;
    ConsForest(g, t, ts);
    assert ForestOf(g, [t] + ts, [x] + beta);
  }

  lemma NullableCons(g: Grammar, x: nat, beta: seq<nat>)
    requires Nullable(g, x) && NullableSeq(g, beta)
    ensures NullableSeq(g, [x] + beta)
  {
    var t :| ValidTree(g, t) && Root(g, t) == x && Yield(t) == [];
    var ts :| ForestOf(g, ts, beta) && YieldAll(ts) == [];
    ConsForest(g, t, ts);
    assert ForestOf(g, [t] + ts, [x] + beta);
  }

  lemma NullableEmpty(g: Grammar)
    ensures NullableSeq(g, [])
  {
    NullableSeqIff(g, []);
  }

  // ---------------------------------------------------------------- following on a stack

  ghost predicate InTop(states: seq<State>, path: seq<nat>, i: Item) {
    path != [] && path[|path| - 1] < |states| && i in states[path[|path| - 1]].cfp
  }

  /** On this stack a may come after the whole rule of configuration i of the top state. */
  ghost predicate MayFollow(g: Grammar, states: seq<State>, path: seq<nat>, i: Item, a: nat, k: nat)
    decreases k, 2
  {
    && i.rule < |g.rules| && i.dot < |path|
    && var low := path[..|path| - i.dot];
       || (g.rules[i.rule].lhs == g.start && |low| == 1 && a == 0)
       || Asks(g, states, low, g.rules[i.rule].lhs, a, k)
  }

  /** Some configuration of the top state waits for x, and a may come after that. */
  ghost predicate Asks(g: Grammar, states: seq<State>, path: seq<nat>, x: nat, a: nat, k: nat)
    decreases k, 1
  {
    exists j :: AskedBy(g, states, path, x, a, k, j)
  }

  ghost predicate AskedBy(g: Grammar, states: seq<State>, path: seq<nat>, x: nat, a: nat, k: nat, j: Item)
    decreases k, 0
  {
    && InTop(states, path, j) && Shifts(g, j, x)
    && (FirstSeq(g, Tail(g, j), a) || (NullableSeq(g, Tail(g, j)) && k > 0 && MayFollow(g, states, path, j, a, k - 1)))
  }

  /** a may come next: at the dot of i, or behind its rule if the rest of it can vanish. */
  ghost predicate CanBeNext(g: Grammar, states: seq<State>, path: seq<nat>, i: Item, a: nat, k: nat) {
    FirstSeq(g, Rest(g, i), a) || (NullableSeq(g, Rest(g, i)) && MayFollow(g, states, path, i, a, k))
  }

  // ---------------------------------------------------------------- the follow sets cover it

  /** The follow set moves up with the dot. */
  lemma {:induction false} FollowMoves(g: Grammar, states: seq<State>, f: map<Config, set<nat>>, path: seq<nat>,
                                       trees: seq<Tree>,
                                       n: nat, r: nat, d: nat, a: nat)
    requires Canonical(g, states) && LalrClosed(g, states, f) && Walk(g, states, path, trees)
    requires n <= |trees| && r < |g.rules| && Item(r, d) in states[path[n]].cfp && d <= n
    requires var c := Config(path[n - d], Item(r, 0)); c in f && a in f[c]
    ensures Config(path[n], Item(r, d)) in f && a in f[Config(path[n], Item(r, d))]
    decreases d
  {
    hide Canonical, ShiftTo, LalrClosed;
    if d > 0 {
      DottedInKernel(g, states, path[n], r, d);
      KernelComesFrom(g, states, path, trees, n, r, d);
      FollowMoves(g, states, f, path, trees, n - 1, r, d - 1, a);
      FollowsLink(g, states, f, path, trees, n, r, d);
    }
  }

  lemma FollowsLink(g: Grammar, states: seq<State>, f: map<Config, set<nat>>, path: seq<nat>, trees: seq<Tree>, n: nat,
                    r: nat, d: nat)
    requires |states| > 0 && LalrClosed(g, states, f) && Walk(g, states, path, trees) && 0 < n <= |trees| && d > 0
    requires Item(r, d) in states[path[n]].cfp && Item(r, d - 1) in states[path[n - 1]].cfp
    requires Shifts(g, Item(r, d - 1), Root(g, trees[n - 1]))
    ensures var c, e := Config(path[n - 1], Item(r, d - 1)), Config(path[n], Item(r, d));
            c in f && e in f && f[c] <= f[e]
  {
    var c, e := Config(path[n - 1], Item(r, d - 1)), Config(path[n], Item(r, d));
    assert ShiftTo(g, states, path[n - 1], Root(g, trees[n - 1]), path[n - 1 + 1]);
    assert IsConfig(states, c) && IsConfig(states, e);
    assert BackLink(g, states, c, e);
  }

  /** What may follow on a stack is in the follow set. */
  lemma {:induction false} FollowIn(g: Grammar, states: seq<State>, f: map<Config, set<nat>>, path: seq<nat>,
                                    trees: seq<Tree>,
                                    i: Item, a: nat, k: nat)
    requires g.Valid() && Canonical(g, states) && LalrClosed(g, states, f) && Walk(g, states, path, trees)
    requires InTop(states, path, i) && MayFollow(g, states, path, i, a, k) && a < g.nterminal
    ensures Config(path[|path| - 1], i) in f && a in f[Config(path[|path| - 1], i)]
    decreases k
  {
    hide Canonical, LalrClosed, Walk, ShiftTo, Asks;
    WalkSizes(g, states, path, trees);
    var n := |trees|;
    Spelled(g, states, path, trees, n, i.rule, i.dot);
    var low, m := path[..|path| - i.dot], n - i.dot;
    WalkBack(g, states, path, trees, m);
    var c := Config(path[m], Item(i.rule, 0));
    BegunConfig(g, states, f, c);
    if !(g.rules[i.rule].lhs == g.start && |low| == 1 && a == 0) {
      AsksFollow(g, states, f, low, trees[..m], i.rule, a, k);
    } else {
      StartFollows(g, states, f, i.rule);
    }
    FollowMoves(g, states, f, path, trees, n, i.rule, i.dot, a);
  }

  lemma WalkSizes(g: Grammar, states: seq<State>, path: seq<nat>, trees: seq<Tree>)
    requires Walk(g, states, path, trees)
    ensures |path| == |trees| + 1 && path[0] == 0 && forall i | 0 <= i < |path| :: path[i] < |states|
  {
  }

  lemma BegunConfig(g: Grammar, states: seq<State>, f: map<Config, set<nat>>, c: Config)
    requires |states| > 0 && LalrClosed(g, states, f) && IsConfig(states, c)
    ensures c in f
  {
  }

  lemma StartFollows(g: Grammar, states: seq<State>, f: map<Config, set<nat>>, r: nat)
    requires Canonical(g, states) && LalrClosed(g, states, f) && r < |g.rules| && g.rules[r].lhs == g.start
    ensures Config(0, Item(r, 0)) in f && 0 in f[Config(0, Item(r, 0))]
  {
    assert StateOk(g, states[0]);
    KernelInItems(g, states[0]);
    assert Item(r, 0) in Kernel(states[0]);
    assert Item(r, 0) in ItemsOf(states[0]);
    assert IsConfig(states, Config(0, Item(r, 0)));
  }

  lemma {:induction false} AsksFollow(g: Grammar, states: seq<State>, f: map<Config, set<nat>>, low: seq<nat>,
                                      trees: seq<Tree>,
                                      r: nat, a: nat, k: nat)
    requires g.Valid() && Canonical(g, states) && LalrClosed(g, states, f) && Walk(g, states, low, trees)
    requires r < |g.rules| && a < g.nterminal && Asks(g, states, low, g.rules[r].lhs, a, k)
    requires InTop(states, low, Item(r, 0))
    ensures Config(low[|low| - 1], Item(r, 0)) in f && a in f[Config(low[|low| - 1], Item(r, 0))]
    decreases k, 0
  {
    hide Canonical, Walk, ShiftTo, MayFollow, FirstSeq, NullableSeq;
    var j :| AskedBy(g, states, low, g.rules[r].lhs, a, k, j);
    var s := low[|low| - 1];
    var c, d := Config(s, j), Config(s, Item(r, 0));
    assert IsConfig(states, c) && IsConfig(states, d) && Expands(g, j, Item(r, 0));
    assert ExpansionFed(g, f, c, d);
    if !FirstSeq(g, Tail(g, j), a) {
      FollowIn(g, states, f, low, trees, j, a, k - 1);
    }
  }

  // ---------------------------------------------------------------- from the closure to the kernel

  /** Expanding a configuration loses nothing: what its expansion begins with, it begins with. */
  lemma ExpandedFirst(g: Grammar, i: Item, j: Item, a: nat)
    requires g.Valid() && Expands(g, i, j) && FirstSeq(g, Rest(g, j), a)
    ensures FirstSeq(g, Rest(g, i), a)
  {
    RestCons(g, i);
    assert Rest(g, j) == g.rules[j.rule].rhs;
    FirstByRule(g, j.rule, a);
    FirstHead(g, g.rules[j.rule].lhs, Tail(g, i), a);
  }

  /** So what comes first behind a dot of a state comes first behind a dot of its kernel. */
  lemma FirstFromKernel(g: Grammar, states: seq<State>, q: nat, i: Item, a: nat) returns (j: Item)
    requires g.Valid() && Canonical(g, states) && q < |states| && i in states[q].cfp && FirstSeq(g, Rest(g, i), a)
    ensures j in Kernel(states[q]) && FirstSeq(g, Rest(g, j), a)
  {
    hide FirstSeq, Rest;
    assert StateOk(g, states[q]);
    KernelInItems(g, states[q]);
    if forall j | j in Kernel(states[q]) :: !FirstSeq(g, Rest(g, j), a) {
      NoneFirst(g, Kernel(states[q]), i, a);
    }
    j :| j in Kernel(states[q]) && FirstSeq(g, Rest(g, j), a);
  }

  lemma NoneFirst(g: Grammar, kernel: set<Item>, i: Item, a: nat)
    requires g.Valid() && kernel <= AllItems(g) && i in Closure(g, kernel)
    requires forall j | j in kernel :: !FirstSeq(g, Rest(g, j), a)
    ensures !FirstSeq(g, Rest(g, i), a)
  {
    hide FirstSeq, Rest;
    ClosureIsClosed(g, kernel);
    var t := set j | j in Closure(g, kernel) && !FirstSeq(g, Rest(g, j), a);
    forall c, d | c in t && Expands(g, c, d)
      ensures d in t
    {
      if FirstSeq(g, Rest(g, d), a) { ExpandedFirst(g, c, d, a); }
    }
    ClosureIsLeast(g, kernel, t);
  }

  /** What may come next in a state that was shifted to may come next in its kernel. */
  lemma {:induction false} NextFromKernel(g: Grammar, states: seq<State>, path: seq<nat>, i: Item, a: nat, k: nat)
    returns (j: Item, k': nat)
    requires g.Valid() && Canonical(g, states) && |path| > 1 && InTop(states, path, i)
    requires CanBeNext(g, states, path, i, a, k)
    ensures j in Kernel(states[path[|path| - 1]]) && CanBeNext(g, states, path, j, a, k')
    decreases k
  {
    hide Canonical, FirstSeq, NullableSeq, Nullable, MayFollow, Rest;
    var q := path[|path| - 1];
    if FirstSeq(g, Rest(g, i), a) {
      j := FirstFromKernel(g, states, q, i, a);
      k' := 0;
    } else if i in Kernel(states[q]) {
      j, k' := i, k;
    } else {
      NotInKernel(g, states, q, i);
      var e := AskedForNew(g, states, path, i, a, k);
      WholeRest(g, i);
      NullableByRule(g, i.rule);
      RestCons(g, e);
      if FirstSeq(g, Tail(g, e), a) {
        FirstBehind(g, g.rules[i.rule].lhs, Tail(g, e), a);
        j := FirstFromKernel(g, states, q, e, a);
        k' := 0;
      } else {
        NullableCons(g, g.rules[i.rule].lhs, Tail(g, e));
        j, k' := NextFromKernel(g, states, path, e, a, k - 1);
      }
    }
  }

  lemma WholeRest(g: Grammar, i: Item)
    requires i.rule < |g.rules| && i.dot == 0
    ensures Rest(g, i) == g.rules[i.rule].rhs
  {
  }

  /** Above the bottom, a rule begun in the top state is asked for there. */
  lemma AskedForNew(g: Grammar, states: seq<State>, path: seq<nat>, i: Item, a: nat, k: nat) returns (e: Item)
    requires |path| > 1 && i.dot == 0 && MayFollow(g, states, path, i, a, k)
    ensures i.rule < |g.rules| && InTop(states, path, e) && Shifts(g, e, g.rules[i.rule].lhs) && CanShift(g, e)
    ensures SymbolAt(g, e) == g.rules[i.rule].lhs
    ensures FirstSeq(g, Tail(g, e), a)
            || (NullableSeq(g, Tail(g, e)) && k > 0 && MayFollow(g, states, path, e, a, k - 1))
  {
    hide FirstSeq, NullableSeq;
    assert path[..|path| - i.dot] == path;
    assert Asks(g, states, path, g.rules[i.rule].lhs, a, k);
    e :| AskedBy(g, states, path, g.rules[i.rule].lhs, a, k, e);
  }

  lemma NotInKernel(g: Grammar, states: seq<State>, q: nat, i: Item)
    requires Canonical(g, states) && q < |states| && i in states[q].cfp && i !in Kernel(states[q])
    ensures i.dot == 0 && i.rule < |g.rules|
  {
    assert StateOk(g, states[q]);
    KernelInItems(g, states[q]);
    assert i in ItemsOf(states[q]);
    ClosureOrigin(g, Kernel(states[q]), i);
  }

  /** Hence in the state below somebody asks for the symbol shifted, with a behind it. */
  lemma NextAsksBelow(g: Grammar, states: seq<State>, path: seq<nat>, trees: seq<Tree>, i: Item, a: nat, k: nat)
    returns (k': nat)
    requires g.Valid() && Canonical(g, states) && Walk(g, states, path, trees) && |trees| > 0
    requires InTop(states, path, i) && CanBeNext(g, states, path, i, a, k)
    ensures Asks(g, states, path[..|path| - 1], Root(g, trees[|trees| - 1]), a, k')
  {
    hide Canonical, Walk, FirstSeq, NullableSeq, MayFollow, Kernel;
    WalkSizes(g, states, path, trees);
    var n := |trees|;
    var j, k0 := NextFromKernel(g, states, path, i, a, k);
    var e := KernelSource(g, states, path, trees, j);
    k' := k0 + 1;
    MovedNext(g, states, path, e, a, k0);
    assert AskedBy(g, states, path[..|path| - 1], Root(g, trees[n - 1]), a, k', e);
  }

  lemma KernelSource(g: Grammar, states: seq<State>, path: seq<nat>, trees: seq<Tree>, j: Item) returns (e: Item)
    requires Walk(g, states, path, trees) && |trees| > 0 && j in Kernel(states[path[|path| - 1]])
    ensures InTop(states, path[..|path| - 1], e) && Shifts(g, e, Root(g, trees[|trees| - 1])) && j == Advance(e)
  {
    var n := |trees|;
    assert ShiftTo(g, states, path[n - 1], Root(g, trees[n - 1]), path[n - 1 + 1]);
    e :| e in ItemsOf(states[path[n - 1]]) && Shifts(g, e, Root(g, trees[n - 1])) && j == Advance(e);
  }

  /** Moving the dot moves the top of the stack. */
  lemma MovedNext(g: Grammar, states: seq<State>, path: seq<nat>, e: Item, a: nat, k: nat)
    requires |path| > 1 && e.rule < |g.rules| && e.dot < |g.rules[e.rule].rhs|
    requires CanBeNext(g, states, path, Advance(e), a, k)
    ensures FirstSeq(g, Tail(g, e), a)
            || (NullableSeq(g, Tail(g, e)) && MayFollow(g, states, path[..|path| - 1], e, a, k))
  {
    hide FirstSeq, NullableSeq, Asks;
    var low := path[..|path| - 1];
    assert Rest(g, Advance(e)) == Tail(g, e);
    if e.dot + 1 < |path| {
      assert path[..|path| - (e.dot + 1)] == low[..|low| - e.dot];
    }
  }

  // ---------------------------------------------------------------- on an accepting run

  /** Whoever asks for a symbol asks for what unit rules make it out of. */
  lemma {:induction false} AsksChain(g: Grammar, states: seq<State>, path: seq<nat>, p: seq<nat>, a: nat, k: nat)
    returns (k': nat)
    requires g.Valid() && Canonical(g, states) && UnitPath(g, p) && Asks(g, states, path, p[|p| - 1], a, k)
    ensures Asks(g, states, path, p[0], a, k')
    decreases |p|
  {
    hide Canonical, Asks;
    if |p| == 1 {
      k' := k;
    } else {
      var n := |p| - 1;
      assert UnitStep(g, p[n - 1], p[n]) && UnitPath(g, p[..n]);
      var r :| UnitRule(g, r, p[n - 1], p[n]);
      AsksUnit(g, states, path, r, p[n - 1], p[n], a, k);
      k' := AsksChain(g, states, path, p[..n], a, k + 1);
    }
  }

  lemma AsksUnit(g: Grammar, states: seq<State>, path: seq<nat>, r: nat, x: nat, y: nat, a: nat, k: nat)
    requires g.Valid() && Canonical(g, states) && UnitRule(g, r, x, y) && Asks(g, states, path, y, a, k)
    ensures Asks(g, states, path, x, a, k + 1)
  {
    hide FirstSeq, NullableSeq, Canonical, MayFollow;
    var j :| AskedBy(g, states, path, y, a, k, j);
    var i := Item(r, 0);
    ExpansionInState(g, states, path[|path| - 1], j, i);
    UnitMayFollow(g, states, path, r, x, y, a, k);
    assert AskedBy(g, states, path, x, a, k + 1, i);
  }

  lemma UnitMayFollow(g: Grammar, states: seq<State>, path: seq<nat>, r: nat, x: nat, y: nat, a: nat, k: nat)
    requires path != [] && UnitRule(g, r, x, y) && Asks(g, states, path, y, a, k)
    ensures MayFollow(g, states, path, Item(r, 0), a, k)
    ensures Shifts(g, Item(r, 0), x) && NullableSeq(g, Tail(g, Item(r, 0)))
  {
    hide Asks, NullableSeq;
    assert Tail(g, Item(r, 0)) == [];
    NullableEmpty(g);
    assert path[..|path| - 0] == path;
  }

  lemma ExpansionInState(g: Grammar, states: seq<State>, q: nat, j: Item, i: Item)
    requires Canonical(g, states) && q < |states| && j in states[q].cfp && Expands(g, j, i)
    ensures i in states[q].cfp
  {
    assert StateOk(g, states[q]);
    KernelInItems(g, states[q]);
    assert j in ItemsOf(states[q]) && i in ItemsOf(states[q]);
  }

  /** A token that is shifted may come next. */
  lemma ShiftedIsNext(g: Grammar, states: seq<State>, path: seq<nat>, a: nat) returns (i: Item)
    requires g.Valid() && path != [] && HasGoto(g, states, path[|path| - 1], a) && a < g.nterminal
    ensures InTop(states, path, i) && CanBeNext(g, states, path, i, a, 0)
  {
    i :| i in states[path[|path| - 1]].cfp && Shifts(g, i, a);
    RestCons(g, i);
    FirstOfTerminal(g, a);
    FirstHead(g, a, Tail(g, i), a);
  }

  /** The token before which an accepting run reduces may follow the rule on this stack. */
  ghost predicate Reads(g: Grammar, states: seq<State>, rows: seq<seq<Action>>, stack: seq<Place>, path: seq<nat>,
                        a: nat, i: Item, k: nat) {
    && stack != []
    && InTop(states, path, i) && CanBeNext(g, states, path, i, a, k)
    && var m := TokenMove(g, rows, stack[|stack| - 1], a);
       m.Reduce_? ==> m.r < |g.rules| && i == Item(m.r, |g.rules[m.r].rhs|) && MayFollow(g, states, path, i, a, k)
  }

  lemma {:induction false} RunReads(g: Grammar, states: seq<State>, rows: seq<seq<Action>>, stack: seq<Place>,
                                    path: seq<nat>,
                                    trees: seq<Tree>, input: seq<nat>, trace: seq<Event>)
    returns (i: Item, k: nat)
    requires g.Valid() && g.StartOffRhs() && Canonical(g, states) && SoundRows(g, states, rows)
    requires StackInv(g, states, stack, path, trees) && Accepts(g, rows, stack, input, trace)
    requires Tokenized(g, input)
    ensures Reads(g, states, rows, stack, path, NextToken(input), i, k)
    decreases |trace|
  {
    hide Canonical, SoundRows, StackInv, TokenMove, AfterReduce, Reducible, CanBeNext, MayFollow, InTop, Walk;
    hide SoundOnToken, Replaced;
    StackParts(g, states, stack, path, trees);
    var a := NextToken(input);
    EndToken(g, states, stack, path, trees);
    var m := TokenMove(g, rows, stack[|stack| - 1], a);
    if m.Reduce_? {
      TopReducible(g, states, rows, stack, path, trees, a);
      ReducibleRule(g, states, stack, path, m.r, a);
      if g.rules[m.r].lhs != g.start {
        var path', trees' := GotoStep(g, states, rows, stack, path, trees, m.r, a);
        var stack' := AfterReduce(g, rows, stack, m.r).stack;
        var i', k0 := RunReads(g, states, rows, stack', path', trees', input, trace[1..]);
        ReadsParts(g, states, rows, stack', path', a, i', k0);
        StackParts(g, states, stack', path', trees');
        k := FollowsReduced(g, states, path, trees, path', trees', m.r, a, i', k0);
      } else {
        k := 0;
        AcceptStep(g, states, rows, stack, path, trees, m.r, a);
        AcceptFollows(g, states, rows, stack, path, m.r, a);
      }
      i := Item(m.r, |g.rules[m.r].rhs|);
      CompleteNext(g, states, path, m.r, a, k);
    } else {
      ShiftHasGoto(g, states, rows, stack, path, trees, a);
      i := ShiftedIsNext(g, states, path, a);
      k := 0;
    }
  }

  lemma EndToken(g: Grammar, states: seq<State>, stack: seq<Place>, path: seq<nat>, trees: seq<Tree>)
    requires g.Valid()
    ensures 0 < g.nterminal
  {
  }

  lemma ReadsParts(g: Grammar, states: seq<State>, rows: seq<seq<Action>>, stack: seq<Place>, path: seq<nat>, a: nat,
                   i: Item, k: nat)
    requires Reads(g, states, rows, stack, path, a, i, k)
    ensures InTop(states, path, i) && CanBeNext(g, states, path, i, a, k)
  {
  }

  lemma ReducibleRule(g: Grammar, states: seq<State>, stack: seq<Place>, path: seq<nat>, r: nat, a: nat)
    requires Reducible(g, states, stack, path, r, a)
    ensures r < |g.rules| && InTop(states, path, Item(r, |g.rules[r].rhs|))
  {
  }

  lemma CompleteNext(g: Grammar, states: seq<State>, path: seq<nat>, r: nat, a: nat, k: nat)
    requires r < |g.rules| && MayFollow(g, states, path, Item(r, |g.rules[r].rhs|), a, k)
    ensures CanBeNext(g, states, path, Item(r, |g.rules[r].rhs|), a, k)
  {
    hide MayFollow, FirstSeq, NullableSeq;
    assert Rest(g, Item(r, |g.rules[r].rhs|)) == [];
    NullableEmpty(g);
  }

  lemma ShiftHasGoto(g: Grammar, states: seq<State>, rows: seq<seq<Action>>, stack: seq<Place>, path: seq<nat>,
                     trees: seq<Tree>, a: nat)
    requires SoundRows(g, states, rows) && StackInv(g, states, stack, path, trees) && a < g.nterminal
    requires var m := TokenMove(g, rows, stack[|stack| - 1], a); m.Goto_? || m.GotoReduce?
    ensures path != [] && HasGoto(g, states, path[|path| - 1], a)
  {
    var s := path[|path| - 1];
    assert stack[|stack| - 1] == At(s);
    assert SoundOnToken(g, states, s, a, TokenMove(g, rows, At(s), a));
  }

  lemma AcceptFollows(g: Grammar, states: seq<State>, rows: seq<seq<Action>>, stack: seq<Place>, path: seq<nat>, r: nat,
                      a: nat)
    requires |path| == |stack| > 0 && AfterReduce(g, rows, stack, r) == Accepted(stack[..1]) && a == 0
    requires r < |g.rules| && g.rules[r].lhs == g.start
    ensures MayFollow(g, states, path, Item(r, |g.rules[r].rhs|), a, 0)
  {
    hide GotoMove;
  }

  /** After the reduction the token comes next; so in the state below it may follow the left-hand
      side, and before the reduction the rule. */
  lemma FollowsReduced(g: Grammar, states: seq<State>, path: seq<nat>, trees: seq<Tree>, path': seq<nat>,
                       trees': seq<Tree>,
                       r: nat, a: nat, i: Item, k: nat)
    returns (k': nat)
    requires g.Valid() && Canonical(g, states) && Walk(g, states, path', trees') && |path| == |trees| + 1
    requires Replaced(g, trees, r, trees')
    requires |path'| == |trees'| + 1 && path'[..|trees'|] == path[..|path| - |g.rules[r].rhs|]
    requires InTop(states, path', i) && CanBeNext(g, states, path', i, a, k)
    ensures MayFollow(g, states, path, Item(r, |g.rules[r].rhs|), a, k')
  {
    hide Canonical, Walk, CanBeNext, Asks, InTop;
    var low := path'[..|trees'|];
    var y := Root(g, trees'[|trees'| - 1]);
    var k0 := NextAsksBelow(g, states, path', trees', i, a, k);
    var p :| UnitPath(g, p) && p[0] == g.rules[r].lhs && p[|p| - 1] == y;
    k' := AsksChain(g, states, low, p, a, k0);
  }
}
