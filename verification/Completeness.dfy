/** When no action had to be resolved away, the parser accepts every token string the grammar
    derives: it walks any parse tree of it in postorder. */
module Completeness {
  import opened Grammars
  import opened FirstSets
  import opened Items
  import opened Actions
  import opened Collections
  import opened Conflicts
  import opened FollowSets
  import opened Machines
  import opened Soundness
  import opened Compression
  import opened RowFacts
  import opened SoundTables
  import opened Lookaheads
  import opened Exactness

  /** No conflict and no precedence removed an action: the grammar is LALR(1). */
  ghost predicate AllLive(rows: seq<seq<Action>>) {
    forall s, a | 0 <= s < |rows| && a in rows[s] :: Live(a)
  }

  /** The tables before compression, for such a grammar. */
  ghost predicate Conflictless(g: Grammar, states: seq<State>, fws: map<Config, set<nat>>, rows: seq<seq<Action>>) {
    && g.Valid() && g.StartOffRhs() && Canonical(g, states) && IsLalr(g, states, fws)
    && ActionRows(g, states, fws, rows) && AllLive(rows)
  }

  // ---------------------------------------------------------------- single moves

  /** Every action that is wanted is the one taken. */
  lemma WantedTaken(g: Grammar, states: seq<State>, fws: map<Config, set<nat>>, rows: seq<seq<Action>>, s: nat,
                    w: Action)
    requires Conflictless(g, states, fws, rows) && s < |states| && Wanted(g, states, fws, s, w)
    ensures s < |rows| && LiveOn(rows[s], w.sp) == [w]
  {
    assert ActionRow(g, states, fws, s, rows[s]);
    var a :| a in rows[s] && OriginOf(a) == w;
    assert Live(a) && a == w;
    LiveOnUnique(rows[s], w);
  }

  lemma ShiftTaken(g: Grammar, states: seq<State>, fws: map<Config, set<nat>>, rows: seq<seq<Action>>, s: nat, x: nat,
                   q: nat)
    requires Conflictless(g, states, fws, rows) && ShiftTo(g, states, s, x, q)
    ensures TokenMove(g, rows, At(s), x) == Goto_(q) && GotoMove(rows, s, x) == Goto_(q)
  {
    var i :| i in states[s].cfp && Shifts(g, i, x);
    assert ShiftsComplete(g, states, s) && CanShift(g, i) && SymbolAt(g, i) == x;
    var w :| w in states[s].ap && w.sp == x;
    WantedTaken(g, states, fws, rows, s, w);
    ShiftFact(g, states, s, w);
    SameState(g, states, s, x, q, w.x);
  }

  lemma ReduceTaken(g: Grammar, states: seq<State>, fws: map<Config, set<nat>>, rows: seq<seq<Action>>,
                    path: seq<nat>, trees: seq<Tree>, r: nat, a: nat, k: nat)
    requires Conflictless(g, states, fws, rows) && Walk(g, states, path, trees) && r < |g.rules| && a < g.nterminal
    requires InTop(states, path, Item(r, |g.rules[r].rhs|))
    requires MayFollow(g, states, path, Item(r, |g.rules[r].rhs|), a, k)
    ensures TokenMove(g, rows, At(path[|path| - 1]), a) == Reduce_(r)
  {
    hide Canonical, Walk, MayFollow, ActionRows, AllLive, LalrClosed;
    var q, i := path[|path| - 1], Item(r, |g.rules[r].rhs|);
    FollowIn(g, states, fws, path, trees, i, a, k);
    assert AsksFor(g, fws, q, i, Action(a, REDUCE, r));
    WantedTaken(g, states, fws, rows, q, Action(a, REDUCE, r));
  }

  /** A state with a goto on x has a state to go to. */
  lemma GotoState(g: Grammar, states: seq<State>, s: nat, x: nat) returns (q: nat)
    requires g.Valid() && g.StartOffRhs() && Canonical(g, states) && HasGoto(g, states, s, x)
    ensures ShiftTo(g, states, s, x, q)
  {
    var i :| i in states[s].cfp && Shifts(g, i, x);
    assert ShiftsComplete(g, states, s) && CanShift(g, i) && SymbolAt(g, i) == x;
    var w :| w in states[s].ap && w.sp == x;
    ShiftFact(g, states, s, w);
    q := w.x;
  }

  // ---------------------------------------------------------------- walking a tree

  function Ats(path: seq<nat>): (p: seq<Place>)
    ensures |p| == |path|
  {
    seq(|path|, i requires 0 <= i < |path| => At(path[i]))
  }

  lemma AtsSnoc(path: seq<nat>, q: nat)
    ensures Ats(path + [q]) == Ats(path) + [At(q)]
  {
  }

  /** How the run goes on once rule r is reduced over the states `base`. */
  ghost predicate GoesOn(g: Grammar, states: seq<State>, rows: seq<seq<Action>>, base: seq<nat>, r: nat, rest: seq<nat>,
                         trace: seq<Event>) {
    && r < |g.rules| && base != []
    && if g.rules[r].lhs == g.start then base == [0] && rest == [] && trace == []
       else exists q ::
              && ShiftTo(g, states, base[|base| - 1], g.rules[r].lhs, q)
              && Accepts(g, rows, Ats(base) + [At(q)], rest, trace)
  }

  /** Shifting a token. */
  lemma RunLeaf(g: Grammar, states: seq<State>, fws: map<Config, set<nat>>, rows: seq<seq<Action>>, path: seq<nat>,
                x: nat, q: nat, rest: seq<nat>, trace: seq<Event>)
    requires Conflictless(g, states, fws, rows) && path != [] && ShiftTo(g, states, path[|path| - 1], x, q)
    requires Accepts(g, rows, Ats(path) + [At(q)], rest, trace)
    ensures Accepts(g, rows, Ats(path), [x] + rest, [Shifted(x)] + trace)
  {
    hide Conflictless, ShiftTo, TokenMove;
    ShiftTaken(g, states, fws, rows, path[|path| - 1], x, q);
    assert ([x] + rest)[1..] == rest && ([Shifted(x)] + trace)[1..] == trace;
    assert Ats(path)[|path| - 1] == At(path[|path| - 1]);
  }

  /** Reducing once the right-hand side is on the stack. */
  lemma RunReduce(g: Grammar, states: seq<State>, fws: map<Config, set<nat>>, rows: seq<seq<Action>>, path: seq<nat>,
                  trees: seq<Tree>,
                  r: nat, rest: seq<nat>, trace: seq<Event>, k: nat)
    requires Conflictless(g, states, fws, rows) && Walk(g, states, path, trees) && r < |g.rules| && Tokenized(g, rest)
    requires InTop(states, path, Item(r, |g.rules[r].rhs|))
    requires MayFollow(g, states, path, Item(r, |g.rules[r].rhs|), NextToken(rest), k)
    requires |g.rules[r].rhs| < |path| && GoesOn(g, states, rows, path[..|path| - |g.rules[r].rhs|], r, rest, trace)
    ensures Accepts(g, rows, Ats(path), rest, [Reduced(r)] + trace)
  {
    hide Conflictless, Walk, TokenMove, MayFollow, InTop, GoesOn;
    EndIsTerminal(g, states, fws, rows);
    ReduceTaken(g, states, fws, rows, path, trees, r, NextToken(rest), k);
    AfterTaken(g, states, fws, rows, path, r, rest, trace);
    assert ([Reduced(r)] + trace)[1..] == trace;
    assert Ats(path)[|path| - 1] == At(path[|path| - 1]);
  }

  lemma EndIsTerminal(g: Grammar, states: seq<State>, fws: map<Config, set<nat>>, rows: seq<seq<Action>>)
    requires Conflictless(g, states, fws, rows)
    ensures 0 < g.nterminal
  {
  }

  ghost predicate OutcomeGoesOn(g: Grammar, rows: seq<seq<Action>>, o: Outcome, rest: seq<nat>, trace: seq<Event>) {
    && o != Failed
    && (o.Continue? ==> Accepts(g, rows, o.stack, rest, trace))
    && (o.Accepted? ==> |o.stack| == 1 && rest == [] && trace == [])
  }

  lemma AfterTaken(g: Grammar, states: seq<State>, fws: map<Config, set<nat>>, rows: seq<seq<Action>>, path: seq<nat>,
                   r: nat, rest: seq<nat>, trace: seq<Event>)
    requires Conflictless(g, states, fws, rows) && r < |g.rules|
    requires |g.rules[r].rhs| < |path| && GoesOn(g, states, rows, path[..|path| - |g.rules[r].rhs|], r, rest, trace)
    ensures OutcomeGoesOn(g, rows, AfterReduce(g, rows, Ats(path), r), rest, trace)
  {
    hide *;
    GoesOnBase(g, states, rows, path, r, rest, trace);
    var base := path[..|path| - |g.rules[r].rhs|];
    if g.rules[r].lhs == g.start {
      AcceptTaken(g, states, fws, rows);
      AcceptOutcome(g, states, rows, path, r, rest, trace);
    } else {
      var q := GoesOnGoto(g, states, rows, base, r, rest, trace);
      ShiftTaken(g, states, fws, rows, base[|base| - 1], g.rules[r].lhs, q);
      GotoOutcomes(g, rows, path, r, q, rest, trace);
    }
  }

  lemma GoesOnBase(g: Grammar, states: seq<State>, rows: seq<seq<Action>>, path: seq<nat>, r: nat, rest: seq<nat>,
                   trace: seq<Event>)
    requires r < |g.rules| && |g.rules[r].rhs| < |path|
    requires GoesOn(g, states, rows, path[..|path| - |g.rules[r].rhs|], r, rest, trace)
    ensures |path| - |g.rules[r].rhs| > 0
  {
  }

  lemma GoesOnGoto(g: Grammar, states: seq<State>, rows: seq<seq<Action>>, base: seq<nat>, r: nat, rest: seq<nat>,
                   trace: seq<Event>)
    returns (q: nat)
    requires r < |g.rules| && GoesOn(g, states, rows, base, r, rest, trace) && g.rules[r].lhs != g.start
    ensures base != [] && ShiftTo(g, states, base[|base| - 1], g.rules[r].lhs, q)
    ensures Accepts(g, rows, Ats(base) + [At(q)], rest, trace)
  {
    q :| ShiftTo(g, states, base[|base| - 1], g.rules[r].lhs, q) && Accepts(g, rows, Ats(base) + [At(q)], rest, trace);
  }

  lemma AcceptOutcome(g: Grammar, states: seq<State>, rows: seq<seq<Action>>, path: seq<nat>, r: nat, rest: seq<nat>,
                      trace: seq<Event>)
    requires r < |g.rules| && |g.rules[r].rhs| < |path|
    requires GoesOn(g, states, rows, path[..|path| - |g.rules[r].rhs|], r, rest, trace)
    requires g.rules[r].lhs == g.start && GotoMove(rows, 0, g.start) == Accept_
    ensures OutcomeGoesOn(g, rows, AfterReduce(g, rows, Ats(path), r), rest, trace)
  {
    hide Accepts, GotoMove;
    var base := path[..|path| - |g.rules[r].rhs|];
    assert Ats(path)[..|base|] == Ats(base) && base == [0];
  }

  lemma GotoOutcomes(g: Grammar, rows: seq<seq<Action>>, path: seq<nat>, r: nat, q: nat, rest: seq<nat>,
                     trace: seq<Event>)
    requires r < |g.rules| && |g.rules[r].rhs| < |path|
    requires var base := path[..|path| - |g.rules[r].rhs|];
             && GotoMove(rows, base[|base| - 1], g.rules[r].lhs) == Goto_(q)
             && Accepts(g, rows, Ats(base) + [At(q)], rest, trace)
    ensures OutcomeGoesOn(g, rows, AfterReduce(g, rows, Ats(path), r), rest, trace)
  {
    hide Accepts, GotoMove;
    var base := path[..|path| - |g.rules[r].rhs|];
    assert Ats(path)[..|base|] == Ats(base);
  }

  lemma AcceptTaken(g: Grammar, states: seq<State>, fws: map<Config, set<nat>>, rows: seq<seq<Action>>)
    requires Conflictless(g, states, fws, rows)
    ensures GotoMove(rows, 0, g.start) == Accept_
  {
    assert ActionRow(g, states, fws, 0, rows[0]);
    AcceptLive(g, states, fws, rows[0]);
  }

  /** The state behind the next symbol of a rule, where the dot has moved. */
  lemma NextState(g: Grammar, states: seq<State>, path: seq<nat>, trees: seq<Tree>, i: Item, t: Tree, a: nat, k: nat)
    returns (q: nat)
    requires g.Valid() && g.StartOffRhs() && Canonical(g, states) && Walk(g, states, path, trees)
    requires InTop(states, path, i) && CanShift(g, i) && SymbolAt(g, i) == Root(g, t)
    requires MayFollow(g, states, path, i, a, k)
    ensures ShiftTo(g, states, path[|path| - 1], Root(g, t), q) && Walk(g, states, path + [q], trees + [t])
    ensures InTop(states, path + [q], Advance(i)) && MayFollow(g, states, path + [q], Advance(i), a, k)
    ensures (path + [q])[..|path + [q]| - (i.dot + 1)] == path[..|path| - i.dot]
  {
    hide Canonical, Asks;
    var s := path[|path| - 1];
    assert HasGoto(g, states, s, Root(g, t));
    q := GotoState(g, states, s, Root(g, t));
    WalkOn(g, states, path, trees, t, q);
    MovedIn(g, states, s, i, q);
    assert (path + [q])[..|path + [q]| - (i.dot + 1)] == path[..|path| - i.dot];
  }

  lemma MovedIn(g: Grammar, states: seq<State>, s: nat, i: Item, q: nat)
    requires Canonical(g, states) && s < |states| && i in states[s].cfp && CanShift(g, i)
    requires ShiftTo(g, states, s, SymbolAt(g, i), q)
    ensures Advance(i) in states[q].cfp
  {
    assert StateOk(g, states[q]);
    KernelInItems(g, states[q]);
    assert i in ItemsOf(states[s]) && Shifts(g, i, SymbolAt(g, i));
    assert Advance(i) in Kernel(states[q]);
    assert Advance(i) in ItemsOf(states[q]);
  }

  /** While the trees ts of the rest of a rule lie ahead, their yield tells what comes after the
      first of them. */
  lemma AskedByRule(g: Grammar, states: seq<State>, path: seq<nat>, i: Item, ts: seq<Tree>, rest: seq<nat>, k: nat)
    requires InTop(states, path, i) && CanShift(g, i) && ts != [] && ValidForest(g, ts) && Roots(g, ts) == Rest(g, i)
    requires MayFollow(g, states, path, i, NextToken(rest), k)
    ensures SymbolAt(g, i) == Root(g, ts[0]) && Roots(g, ts[1..]) == Tail(g, i)
    ensures Asks(g, states, path, SymbolAt(g, i), NextToken(YieldAll(ts[1..]) + rest), k + 1)
  {
    hide MayFollow;
    assert Roots(g, ts)[0] == Root(g, ts[0]);
    assert Roots(g, ts[1..]) == Roots(g, ts)[1..] == Tail(g, i);
    assert ForestOf(g, ts[1..], Tail(g, i));
    if YieldAll(ts[1..]) == [] {
      assert YieldAll(ts[1..]) + rest == rest;
    }
    assert AskedBy(g, states, path, SymbolAt(g, i), NextToken(YieldAll(ts[1..]) + rest), k + 1, i);
  }

  // ---------------------------------------------------------------- a tree is a run

  /** The tree t of a symbol that the top state waits for is read in postorder, and its goto is made. */
  lemma {:induction false} RunTree(g: Grammar, states: seq<State>, fws: map<Config, set<nat>>, rows: seq<seq<Action>>,
                                   path: seq<nat>, trees: seq<Tree>, t: Tree, q: nat, rest: seq<nat>, trace: seq<Event>,
                                   k: nat)
    returns (run: seq<Event>)
    requires Conflictless(g, states, fws, rows) && Walk(g, states, path, trees) && ValidTree(g, t)
    requires Tokenized(g, Yield(t)) && Tokenized(g, rest)
    requires path != [] && ShiftTo(g, states, path[|path| - 1], Root(g, t), q)
    requires Asks(g, states, path, Root(g, t), NextToken(rest), k)
    requires Accepts(g, rows, Ats(path) + [At(q)], rest, trace)
    ensures Accepts(g, rows, Ats(path), Yield(t) + rest, run)
    ensures run == Post(t) + trace
    decreases t, 1
  {
    hide Conflictless, Walk, ShiftTo, Asks, Accepts, MayFollow, InTop;
    match t
    case Leaf(x) =>
      RunLeaf(g, states, fws, rows, path, x, q, rest, trace);
      run := [Shifted(x)] + trace;
    case Node(r, kids) =>
      ConflictlessParts(g, states, fws, rows);
      BeginRule(g, states, path, r, NextToken(rest), k);
      NotStart(g, states, path[|path| - 1], g.rules[r].lhs, q);
      KidsGoOn(g, states, rows, path, r, q, rest, trace);
      assert path[..|path| - 0] == path && g.rules[r].rhs[0..] == g.rules[r].rhs;
      run := RunKids(g, states, fws, rows, path, trees, r, kids, rest, trace, k);
      assert run == (PostAll(kids) + [Reduced(r)]) + trace;
  }

  lemma ConflictlessParts(g: Grammar, states: seq<State>, fws: map<Config, set<nat>>, rows: seq<seq<Action>>)
    requires Conflictless(g, states, fws, rows)
    ensures g.Valid() && g.StartOffRhs() && Canonical(g, states)
  {
  }

  /** A rule of a symbol that is asked for is begun in the top state. */
  lemma BeginRule(g: Grammar, states: seq<State>, path: seq<nat>, r: nat, a: nat, k: nat)
    requires Canonical(g, states) && path != [] && r < |g.rules| && Asks(g, states, path, g.rules[r].lhs, a, k)
    ensures InTop(states, path, Item(r, 0)) && MayFollow(g, states, path, Item(r, 0), a, k)
  {
    hide Canonical;
    var j :| AskedBy(g, states, path, g.rules[r].lhs, a, k, j);
    ExpansionInState(g, states, path[|path| - 1], j, Item(r, 0));
    assert path[..|path| - 0] == path;
  }

  lemma NotStart(g: Grammar, states: seq<State>, s: nat, x: nat, q: nat)
    requires g.StartOffRhs() && ShiftTo(g, states, s, x, q)
    ensures x != g.start
  {
    NoStartGoto(g, states, s);
  }

  lemma KidsGoOn(g: Grammar, states: seq<State>, rows: seq<seq<Action>>, path: seq<nat>, r: nat, q: nat, rest: seq<nat>,
                 trace: seq<Event>)
    requires path != [] && r < |g.rules| && g.rules[r].lhs != g.start
    requires ShiftTo(g, states, path[|path| - 1], g.rules[r].lhs, q)
    requires Accepts(g, rows, Ats(path) + [At(q)], rest, trace)
    ensures GoesOn(g, states, rows, path, r, rest, trace)
  {
    hide Accepts, ShiftTo;
  }

  /** The dot of rule r behind the children already read. */
  function DotAt(g: Grammar, r: nat, ts: seq<Tree>): nat
    requires r < |g.rules| && |ts| <= |g.rules[r].rhs|
  {
    |g.rules[r].rhs| - |ts|
  }

  /** What is left of rule r is read, and the rule reduced. */
  lemma {:induction false} RunKids(g: Grammar, states: seq<State>, fws: map<Config, set<nat>>, rows: seq<seq<Action>>,
                                   path: seq<nat>, trees: seq<Tree>, r: nat, ts: seq<Tree>, rest: seq<nat>,
                                   trace: seq<Event>, k: nat)
    returns (run: seq<Event>)
    requires Conflictless(g, states, fws, rows) && Walk(g, states, path, trees)
    requires r < |g.rules| && |ts| <= |g.rules[r].rhs| && ValidForest(g, ts)
    requires Roots(g, ts) == g.rules[r].rhs[DotAt(g, r, ts)..]
    requires Tokenized(g, YieldAll(ts)) && Tokenized(g, rest)
    requires InTop(states, path, Item(r, DotAt(g, r, ts)))
    requires MayFollow(g, states, path, Item(r, DotAt(g, r, ts)), NextToken(rest), k)
    requires DotAt(g, r, ts) < |path| && GoesOn(g, states, rows, path[..|path| - DotAt(g, r, ts)], r, rest, trace)
    ensures Accepts(g, rows, Ats(path), YieldAll(ts) + rest, run)
    ensures run == PostAll(ts) + [Reduced(r)] + trace
    decreases ts, 0
  {
    hide Conflictless, Walk, ShiftTo, Asks, Accepts, MayFollow, InTop, GoesOn, Post, PostAll;
    KidsEvents(ts, r, trace);
    if ts == [] {
      RunReduce(g, states, fws, rows, path, trees, r, rest, trace, k);
      assert YieldAll(ts) + rest == rest;
      run := [Reduced(r)] + trace;
    } else {
      var i := Item(r, DotAt(g, r, ts));
      var tail := YieldAll(ts[1..]) + rest;
      ConflictlessParts(g, states, fws, rows);
      RestIs(g, r, ts);
      AskedByRule(g, states, path, i, ts, rest, k);
      var q := NextState(g, states, path, trees, i, ts[0], NextToken(rest), k);
      TokensOf(g, ts, rest);
      var run1 := RunKids(g, states, fws, rows, path + [q], trees + [ts[0]], r, ts[1..], rest, trace, k);
      AtsSnoc(path, q);
      run := RunTree(g, states, fws, rows, path, trees, ts[0], q, tail, run1, k + 1);
      assert YieldAll(ts) + rest == Yield(ts[0]) + tail;
    }
  }

  lemma KidsEvents(ts: seq<Tree>, r: nat, trace: seq<Event>)
    ensures ts == [] ==> [Reduced(r)] + trace == PostAll(ts) + [Reduced(r)] + trace
    ensures ts != [] ==>
              Post(ts[0]) + (PostAll(ts[1..]) + [Reduced(r)] + trace) == PostAll(ts) + [Reduced(r)] + trace
  {
  }

  lemma RestIs(g: Grammar, r: nat, ts: seq<Tree>)
    requires r < |g.rules| && 0 < |ts| <= |g.rules[r].rhs| && Roots(g, ts) == g.rules[r].rhs[DotAt(g, r, ts)..]
    ensures var i := Item(r, DotAt(g, r, ts)); Roots(g, ts) == Rest(g, i) && CanShift(g, i)
    ensures Roots(g, ts[1..]) == g.rules[r].rhs[DotAt(g, r, ts[1..])..] && DotAt(g, r, ts[1..]) == DotAt(g, r, ts) + 1
  {
    assert Roots(g, ts[1..]) == Roots(g, ts)[1..];
  }

  lemma TokensOf(g: Grammar, ts: seq<Tree>, rest: seq<nat>)
    requires ts != [] && Tokenized(g, YieldAll(ts)) && Tokenized(g, rest)
    ensures Tokenized(g, Yield(ts[0])) && Tokenized(g, YieldAll(ts[1..])) && Tokenized(g, YieldAll(ts[1..]) + rest)
  {
    var u, v := Yield(ts[0]), YieldAll(ts[1..]);
    assert YieldAll(ts) == u + v;
    forall i | 0 <= i < |u|
      ensures u[i] < g.nterminal
    {
      assert u[i] == YieldAll(ts)[i];
    }
    forall i | 0 <= i < |v|
      ensures v[i] < g.nterminal
    {
      assert v[i] == YieldAll(ts)[|u| + i];
    }
  }

  lemma LeafToken(g: Grammar, x: nat)
    requires Tokenized(g, Yield(Leaf(x)))
    ensures x < g.nterminal
  {
    assert Yield(Leaf(x))[0] == x;
  }

  lemma StartIsNode(g: Grammar, t: Tree)
    requires g.Valid() && Root(g, t) == g.start && Tokenized(g, Yield(t))
    ensures t.Node?
  {
    if t.Leaf? { LeafToken(g, t.sym); }
  }

  lemma StartWalk(g: Grammar, states: seq<State>, r: nat)
    requires Canonical(g, states) && r < |g.rules| && g.rules[r].lhs == g.start
    ensures Walk(g, states, [0], []) && InTop(states, [0], Item(r, 0)) && MayFollow(g, states, [0], Item(r, 0), 0, 0)
  {
    assert StateOk(g, states[0]);
    KernelInItems(g, states[0]);
    assert Item(r, 0) in Kernel(states[0]) && Item(r, 0) in ItemsOf(states[0]);
  }

  /** Every parse tree of a token string is accepted, in postorder. */
  lemma TreeIsAccepted(g: Grammar, states: seq<State>, fws: map<Config, set<nat>>, rows: seq<seq<Action>>, t: Tree)
    requires Conflictless(g, states, fws, rows) && ValidTree(g, t) && Root(g, t) == g.start && Tokenized(g, Yield(t))
    ensures Accepts(g, rows, [At(0)], Yield(t), Post(t))
  {
    hide Conflictless, Accepts, Walk, InTop, MayFollow;
    ConflictlessParts(g, states, fws, rows);
    StartIsNode(g, t);
    var r, kids := t.rule, t.kids;
    StartWalk(g, states, r);
    assert [0][..1] == [0] && g.rules[r].rhs[0..] == g.rules[r].rhs;
    assert YieldAll(kids) + [] == Yield(t) && Ats([0]) == [At(0)];
    var run := RunKids(g, states, fws, rows, [0], [], r, kids, [], [], 0);
    assert run == Post(t);
  }

  /** The machine is deterministic. */
  lemma {:induction false} OneTrace(g: Grammar, rows: seq<seq<Action>>, stack: seq<Place>, input: seq<nat>,
                                    t: seq<Event>, u: seq<Event>)
    requires Accepts(g, rows, stack, input, t) && Accepts(g, rows, stack, input, u)
    ensures t == u
    decreases |t|
  {
    var m := TokenMove(g, rows, stack[|stack| - 1], NextToken(input));
    if m.Goto_? || m.GotoReduce? {
      OneTrace(g, rows, stack + Pushed(m), input[1..], t[1..], u[1..]);
    } else if m.Reduce_? {
      var o := AfterReduce(g, rows, stack, m.r);
      if o.Continue? { OneTrace(g, rows, o.stack, input, t[1..], u[1..]); }
    }
    assert t == [t[0]] + t[1..] && u == [u[0]] + u[1..];
  }

  /** Completeness: every token string derived from the start symbol is accepted, and the run is the postorder of
      each of its parse trees. */
  lemma DerivedIsAccepted(g: Grammar, states: seq<State>, fws: map<Config, set<nat>>, rows: seq<seq<Action>>,
                          w: seq<nat>)
    returns (trace: seq<Event>)
    requires Conflictless(g, states, fws, rows) && Tokenized(g, w) && Derives(g, g.start, w)
    ensures Accepts(g, rows, [At(0)], w, trace)
    ensures forall t | ValidTree(g, t) && Root(g, t) == g.start && Yield(t) == w :: trace == Post(t)
  {
    hide Conflictless, Accepts;
    var t :| ValidTree(g, t) && Root(g, t) == g.start && Yield(t) == w;
    TreeIsAccepted(g, states, fws, rows, t);
    trace := Post(t);
    forall u | ValidTree(g, u) && Root(g, u) == g.start && Yield(u) == w
      ensures trace == Post(u)
    {
      TreeIsAccepted(g, states, fws, rows, u);
      OneTrace(g, rows, [At(0)], w, trace, Post(u));
    }
  }

  // ---------------------------------------------------------------- one tree only

  lemma {:induction false} PostSnoc(ts: seq<Tree>)
    requires ts != []
    ensures PostAll(ts) == PostAll(ts[..|ts| - 1]) + Post(ts[|ts| - 1])
  {
    if |ts| > 1 {
      PostSnoc(ts[1..]);
      assert ts[1..][..|ts| - 2] == ts[..|ts| - 1][1..];
    }
  }

  /** Postorder is read back from its end: the number of children is that of the rule. */
  lemma {:induction false} SamePost(g: Grammar, p: seq<Event>, t: Tree, q: seq<Event>, u: Tree)
    requires ValidTree(g, t) && ValidTree(g, u) && p + Post(t) == q + Post(u)
    ensures t == u && p == q
    decreases t, 1
  {
    LastOf(p, t);
    LastOf(q, u);
    assert p + Front(t) == (p + Post(t))[..|p + Post(t)| - 1] == q + Front(u);
    if t.Node? {
      assert |t.kids| == |Roots(g, t.kids)| == |Roots(g, u.kids)| == |u.kids|;
      SamePosts(g, p, t.kids, q, u.kids);
    }
  }

  /** All events of a tree but the last. */
  function Front(t: Tree): seq<Event> {
    match t
    case Leaf(_) => []
    case Node(_, kids) => PostAll(kids)
  }

  lemma LastOf(p: seq<Event>, t: Tree)
    ensures var s := p + Post(t);
            && s != [] && s[..|s| - 1] == p + Front(t)
            && s[|s| - 1] == (if t.Leaf? then Shifted(t.sym) else Reduced(t.rule))
  {
  }

  lemma {:induction false} SamePosts(g: Grammar, p: seq<Event>, ts: seq<Tree>, q: seq<Event>, us: seq<Tree>)
    requires ValidForest(g, ts) && ValidForest(g, us) && |ts| == |us| && p + PostAll(ts) == q + PostAll(us)
    ensures ts == us && p == q
    decreases ts, 0
  {
    if ts == [] {
      assert p + [] == p && q + [] == q;
    } else {
      var n := |ts| - 1;
      PostSnoc(ts);
      PostSnoc(us);
      assert (p + PostAll(ts[..n])) + Post(ts[n]) == p + PostAll(ts);
      assert (q + PostAll(us[..n])) + Post(us[n]) == q + PostAll(us);
      PartForest(g, ts, n);
      PartForest(g, us, n);
      SamePost(g, p + PostAll(ts[..n]), ts[n], q + PostAll(us[..n]), us[n]);
      SamePosts(g, p, ts[..n], q, us[..n]);
    }
  }

  /** A grammar without conflicts is unambiguous: no token string has two parse trees. */
  lemma Unambiguous(g: Grammar, states: seq<State>, fws: map<Config, set<nat>>, rows: seq<seq<Action>>, t: Tree,
                    u: Tree)
    requires Conflictless(g, states, fws, rows)
    requires ValidTree(g, t) && Root(g, t) == g.start && ValidTree(g, u) && Root(g, u) == g.start
    requires Yield(t) == Yield(u) && Tokenized(g, Yield(t))
    ensures t == u
  {
    hide Conflictless, Accepts;
    TreeIsAccepted(g, states, fws, rows, t);
    TreeIsAccepted(g, states, fws, rows, u);
    OneTrace(g, rows, [At(0)], Yield(t), Post(t), Post(u));
    assert [] + Post(t) == [] + Post(u);
    SamePost(g, [], t, [], u);
  }

  // ---------------------------------------------------------------- the compressed parser

  /** What the compressed parser accepts is derived from the start symbol, whatever conflicts there were. */
  lemma CompressedIsSound(b: Build, w: seq<nat>, trace: seq<Event>)
    requires b.Ok() && Tokenized(b.g, w) && AcceptsAfter(b, w, trace)
    ensures Derives(b.g, b.g.start, w)
  {
    hide Build.Ok, Accepts, SoundRows, StackInv, Tokenized, Derives;
    ParserOk(b);
    CompressedRowsSound(b);
    AcceptOf(b);
    StackInvStart(b.g, b.states);
    AcceptedIsDerived(b.g, b.states, b.res, [At(0)], [0], [], w, trace);
    assert YieldAll([]) + w == w;
  }

  /** Without conflicts it accepts exactly the token strings that the start symbol derives. */
  lemma CompressedLanguage(b: Build, w: seq<nat>)
    requires b.Ok() && AllLive(b.rows) && Tokenized(b.g, w)
    ensures (exists trace :: AcceptsAfter(b, w, trace)) <==> Derives(b.g, b.g.start, w)
  {
    hide Accepts, Tokenized, Derives, Canonical, IsLalr, ActionRows, Compressed, AllLive;
    if Derives(b.g, b.g.start, w) {
      var trace := DerivedIsAccepted(b.g, b.states, b.fws, b.rows, w);
      var trace1 := AfterFromBefore(b, w, trace);
    }
    if trace :| AcceptsAfter(b, w, trace) { CompressedIsSound(b, w, trace); }
  }

  /** So it does when it is fed token by token. */
  lemma FedLanguage(b: Build, w: seq<nat>)
    requires b.Ok() && AllLive(b.rows) && Tokenized(b.g, w)
    ensures (exists fuel: nat :: FeedAll(b.g, b.res, [At(0)], w, fuel).0) <==> Derives(b.g, b.g.start, w)
  {
    hide Accepts, FeedAll, Build.Ok, Tokenized, Derives, AllLive;
    CompressedLanguage(b, w);
    if trace :| AcceptsAfter(b, w, trace) {
      AcceptsIsFed(b.g, b.res, [At(0)], w, trace, |trace|);
      assert FeedAll(b.g, b.res, [At(0)], w, |trace|).0;
    }
    if fuel: nat :| FeedAll(b.g, b.res, [At(0)], w, fuel).0 {
      FedIsAccepts(b.g, b.res, [At(0)], w, fuel);
      assert AcceptsAfter(b, w, FeedAll(b.g, b.res, [At(0)], w, fuel).1);
    }
  }
}
