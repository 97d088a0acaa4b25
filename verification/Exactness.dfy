/** The converse of the simulation: compression accepts nothing new.  A default reduction taken
    before a wrong token only delays the error, because on an accepting run the token that is read
    is in the LALR(1) follow set of every rule that is reduced before it. */
module Exactness {
  import opened Grammars
  import opened Items
  import opened Actions
  import opened Collections
  import opened Conflicts
  import opened FollowSets
  import opened Machines
  import opened Soundness
  import opened Compression
  import opened RowFacts
  import opened SoundTables
  import opened Lookaheads
  import opened Simulation

  // ---------------------------------------------------------------- states and their symbols

  /** A state is entered by one symbol only. */
  lemma OneSymbol(g: Grammar, states: seq<State>, s: nat, x: nat, s': nat, y: nat, q: nat)
    requires ShiftTo(g, states, s, x, q) && ShiftTo(g, states, s', y, q)
    ensures x == y
  {
    var i :| i in states[s].cfp && Shifts(g, i, x);
    assert i in ItemsOf(states[s]) && Advance(i) in Goto(g, ItemsOf(states[s]), x);
    var j :| j in ItemsOf(states[s']) && Shifts(g, j, y) && Advance(i) == Advance(j);
  }

  /** A state that completes r is entered by its last symbol. */
  lemma CompletedBy(g: Grammar, states: seq<State>, s: nat, x: nat, q: nat, r: nat)
    requires Canonical(g, states) && ShiftTo(g, states, s, x, q) && Complete(g, states, q, r) && g.rules[r].rhs != []
    ensures x == g.rules[r].rhs[|g.rules[r].rhs| - 1]
  {
    hide Canonical, HasGoto;
    DottedInKernel(g, states, q, r, |g.rules[r].rhs|);
    var i :| i in ItemsOf(states[s]) && Shifts(g, i, x) && Item(r, |g.rules[r].rhs|) == Advance(i);
  }

  lemma SameState(g: Grammar, states: seq<State>, s: nat, x: nat, q: nat, q': nat)
    requires g.Valid() && Canonical(g, states) && ShiftTo(g, states, s, x, q) && ShiftTo(g, states, s, x, q')
    ensures q == q'
  {
    assert StateOk(g, states[q]) && StateOk(g, states[q']);
    SameKernel(g, states, q, q');
  }

  // ---------------------------------------------------------------- the original row has the action

  /** A rule that the token may follow on the stack is one that the original row reduces by, or
      loses to a conflict: there is an action. */
  lemma HasAction(b: Build, path: seq<nat>, trees: seq<Tree>, r: nat, a: nat, k: nat)
    requires b.Ok() && Walk(b.g, b.states, path, trees) && r < |b.g.rules| && a < b.g.nterminal
    requires InTop(b.states, path, Item(r, |b.g.rules[r].rhs|))
    requires MayFollow(b.g, b.states, path, Item(r, |b.g.rules[r].rhs|), a, k)
    ensures path[|path| - 1] < |b.rows| && LiveOn(b.rows[path[|path| - 1]], a) != []
  {
    hide Canonical, Walk, MayFollow, Compressed, LalrClosed;
    var q, i := path[|path| - 1], Item(r, |b.g.rules[r].rhs|);
    FollowIn(b.g, b.states, b.fws, path, trees, i, a, k);
    assert ActionRow(b.g, b.states, b.fws, q, b.rows[q]);
    hide ActionRow;
    WantedLive(b.g, b.states, b.fws, q, b.rows[q], Action(a, REDUCE, r));
  }

  lemma WantedLive(g: Grammar, states: seq<State>, fws: map<Config, set<nat>>, q: nat, row: seq<Action>, w: Action)
    requires q < |states| && ActionRow(g, states, fws, q, row)
    requires w.sp < g.nterminal && w.typ == REDUCE && w.x < |g.rules|
    requires Item(w.x, |g.rules[w.x].rhs|) in states[q].cfp
    requires AsksFor(g, fws, q, Item(w.x, |g.rules[w.x].rhs|), w)
    ensures LiveOn(row, w.sp) != []
  {
    assert Wanted(g, states, fws, q, w);
    var e :| e in row && OriginOf(e) == w;
    var k :| 0 <= k < |row| && row[k] == e;
    assert GroupLives(row, row[k].sp);
    var j :| 0 <= j < |row| && row[j].sp == w.sp && Live(row[j]);
    assert row[j] in row;
  }

  // ---------------------------------------------------------------- both drivers

  /** The original stack and the compressed one, each with its states and trees. */
  datatype Pair = Pair(st0: seq<Place>, path0: seq<nat>, trees0: seq<Tree>, st1: seq<Place>, path1: seq<nat>,
                       trees1: seq<Tree>) {
    ghost predicate Ok(b: Build) {
      && StackInv(b.g, b.states, st0, path0, trees0)
      && StackInv(b.g, b.states, st1, path1, trees1)
    }
  }

  /** In step, both are in the same LR(0) state. */
  lemma SameTop(b: Build, z: Pair)
    requires b.Ok() && z.Ok(b) && InStep(b, z.st0, z.st1)
    ensures |z.path0| == |z.path1| > 0 && z.st0[|z.st0| - 1] == At(z.path0[|z.path0| - 1])
    ensures z.path0[|z.path0| - 1] == z.path1[|z.path1| - 1]
  {
    var n := |z.path0| - 1;
    var q, p1 := z.path0[n], z.st1[n];
    if p1.Pending? && n > 0 {
      AutoBlind(b, q);
      var r := p1.r;
      assert z.st0[n - 1] == z.st1[n - 1];
      StackTop(b.g, b.states, z.st0, z.path0, z.trees0);
      StackTop(b.g, b.states, z.st1, z.path1, z.trees1);
      hide Canonical, ShiftTo, Walk, IsLalr, ActionRows, Compressed;
      CompletedBy(b.g, b.states, z.path0[n - 1], Root(b.g, z.trees0[n - 1]), q, r);
      CompletedBy(b.g, b.states, z.path1[n - 1], Root(b.g, z.trees1[n - 1]), z.path1[n], r);
      SameState(b.g, b.states, z.path0[n - 1], Root(b.g, z.trees0[n - 1]), q, z.path1[n]);
    } else if p1.Pending? {
      AutoBlind(b, q);
      BottomNotComplete(b, z, p1.r);
    }
  }

  /** The entry on top, over the state below it. */
  lemma StackTop(g: Grammar, states: seq<State>, stack: seq<Place>, path: seq<nat>, trees: seq<Tree>)
    requires StackInv(g, states, stack, path, trees) && |path| > 1
    ensures |stack| == |path| == |trees| + 1 && PlaceOk(g, states, stack[|stack| - 1], path[|path| - 1])
    ensures stack[|stack| - 2] == At(path[|path| - 2])
    ensures ShiftTo(g, states, path[|path| - 2], Root(g, trees[|trees| - 1]), path[|path| - 1])
  {
    var n := |trees| - 1;
    assert ShiftTo(g, states, path[n], Root(g, trees[n]), path[n + 1]);
  }

  /** Nothing is complete at the bottom that has a right-hand side. */
  lemma BottomNotComplete(b: Build, z: Pair, r: nat)
    requires b.Ok() && z.Ok(b) && |z.path0| == 1
    requires Complete(b.g, b.states, z.path0[0], r)
    ensures b.g.rules[r].rhs == []
  {
    if b.g.rules[r].rhs != [] { DottedInKernel(b.g, b.states, 0, r, |b.g.rules[r].rhs|); }
  }

  // ---------------------------------------------------------------- catching up

  /** A chain is a path of unit rules. */
  lemma ChainIsUnitPath(b: Build, s: nat, p: seq<nat>)
    requires Chain(b, s, p)
    ensures UnitPath(b.g, p)
  {
    forall i | 0 < i < |p|
      ensures UnitStep(b.g, p[i - 1], p[i])
    {
      assert ChainStep(b, s, p[i - 1], p[i]);
    }
  }

  /** The last symbol of a chain is the one on top of the compressed stack. */
  lemma ChainSymbol(b: Build, z: Pair, p: seq<nat>)
    requires b.Ok() && z.Ok(b) && LagsOnTop(b, z.st0, z.st1, p)
    ensures |z.path1| > 1 && z.path1[|z.path1| - 2] == z.st0[|z.st0| - 2].s
    ensures Root(b.g, z.trees1[|z.trees1| - 1]) == p[|p| - 1]
  {
    var n := |z.st0| - 1;
    var s, y := z.st0[n - 1].s, p[|p| - 1];
    var q := Target(b.rows[s], y);
    assert Shiftable(b.rows[s], y) && z.st0[n - 1] == z.st1[n - 1];
    Facts(b, 0);
    LiveFactOf(b, s, y);
    StackTop(b.g, b.states, z.st1, z.path1, z.trees1);
    SymbolOnTop(b, s, y, q, z.path1[n], z.st1[n], Root(b.g, z.trees1[n - 1]));
  }

  lemma SymbolOnTop(b: Build, s: nat, y: nat, q: nat, q1: nat, p1: Place, x: nat)
    requires b.Ok() && ShiftTo(b.g, b.states, s, y, q) && ShiftTo(b.g, b.states, s, x, q1)
    requires Same(b, At(q), p1) && PlaceOk(b.g, b.states, p1, q1)
    ensures x == y
  {
    hide Build.Ok, ShiftTo, Canonical, Grammar.Valid, HasGoto, Complete;
    if p1 == At(q) {
      OneSymbol(b.g, b.states, s, x, s, y, q);
    } else {
      ParserOk(b);
      AutoBlind(b, q);
      CompletedBy(b.g, b.states, s, y, q, b.best[q]);
      CompletedBy(b.g, b.states, s, x, q1, b.best[q]);
    }
  }

  /** While it lags, the original driver has an action on the token. */
  lemma LagHasAction(b: Build, z: Pair, p: seq<nat>, i: Item, a: nat, k: nat)
    requires b.Ok() && z.Ok(b) && LagsOnTop(b, z.st0, z.st1, p) && |p| > 1 && a < b.g.nterminal
    requires InTop(b.states, z.path1, i) && CanBeNext(b.g, b.states, z.path1, i, a, k)
    ensures TokenMove(b.g, b.rows, z.st0[|z.st0| - 1], a) != Error_
  {
    var n := |z.st0| - 1;
    var s := z.st0[n - 1].s;
    var q := Target(b.rows[s], p[0]);
    ChainSymbol(b, z, p);
    ChainIsUnitPath(b, s, p);
    ChainHead(b, s, p);
    LagTop(b, z, p);
    hide Build.Ok, Chain, Lags, Walk, CanBeNext, Asks, UnitPath, InTop, StackInv, ChainStep, Shiftable, TokenMove, Same;
    StackParts(b.g, b.states, z.st1, z.path1, z.trees1);
    ParserOk(b);
    var k0 := NextAsksBelow(b.g, b.states, z.path1, z.trees1, i, a, k);
    TailUnitPath(b.g, p);
    var k1 := AsksChain(b.g, b.states, z.path1[..n], p[1..], a, k0);
    SamePaths(b, z);
    StackParts(b.g, b.states, z.st0, z.path0, z.trees0);
    LagReduces(b, z.path0, z.trees0, s, p[0], p[1], a, k1);
  }

  lemma ParserOk(b: Build)
    requires b.Ok()
    ensures b.g.Valid() && b.g.StartOffRhs() && Canonical(b.g, b.states)
  {
  }

  lemma TailUnitPath(g: Grammar, p: seq<nat>)
    requires UnitPath(g, p) && |p| > 1
    ensures UnitPath(g, p[1..])
  {
    forall i | 0 < i < |p[1..]|
      ensures UnitStep(g, p[1..][i - 1], p[1..][i])
    {
      assert UnitStep(g, p[i + 1 - 1], p[i + 1]);
    }
  }

  /** Where the lagging driver stands. */
  lemma LagTop(b: Build, z: Pair, p: seq<nat>)
    requires b.Ok() && z.Ok(b) && LagsOnTop(b, z.st0, z.st1, p)
    ensures var n, s := |z.st0| - 1, z.st0[|z.st0| - 2].s;
            && |z.path0| == |z.path1| == n + 1 && |b.rows| == |b.states|
            && z.path0[n - 1] == s == z.path1[n - 1] && z.path0[n] == Target(b.rows[s], p[0])
              && z.st0[n] == At(z.path0[n])
  {
    Facts(b, 0);
  }

  /** Below the top both stacks are in the same states. */
  lemma SamePaths(b: Build, z: Pair)
    requires z.Ok(b) && SameBelow(z.st0, z.st1)
    ensures |z.path0| == |z.path1| == |z.st0| && z.path0[..|z.path0| - 1] == z.path1[..|z.path1| - 1]
  {
    forall i | 0 <= i < |z.st0| - 1
      ensures z.path0[i] == z.path1[i]
    {
      assert z.st0[i] == At(z.path0[i]) && z.st1[i] == At(z.path1[i]);
    }
  }

  /** There its unit rule may be followed by the token. */
  lemma LagReduces(b: Build, path: seq<nat>, trees: seq<Tree>, s: nat, x: nat, y: nat, a: nat, k: nat)
    requires b.Ok() && Walk(b.g, b.states, path, trees) && |path| > 1 && a < b.g.nterminal && |b.rows| == |b.states|
    requires s < |b.rows| && ChainStep(b, s, x, y) && path[|path| - 1] == Target(b.rows[s], x)
    requires Asks(b.g, b.states, path[..|path| - 1], y, a, k)
    ensures TokenMove(b.g, b.rows, At(path[|path| - 1]), a) != Error_
  {
    hide Build.Ok, Asks, Walk, UnitChain, TokenMove, LiveOn;
    var q := path[|path| - 1];
    var r := b.best[q];
    AutoBlind(b, q);
    UnitComplete(b, q, r, x, y);
    assert MayFollow(b.g, b.states, path, Item(r, 1), a, k);
    HasAction(b, path, trees, r, a, k);
    OriginalMove(b, q, a);
  }

  lemma UnitComplete(b: Build, q: nat, r: nat, x: nat, y: nat)
    requires Complete(b.g, b.states, q, r) && UnitRule(b.g, r, x, y)
    ensures q < |b.states| && Item(r, 1) in b.states[q].cfp && Item(r, 1) == Item(r, |b.g.rules[r].rhs|)
    ensures b.g.rules[r].lhs == y
  {
  }

  // ---------------------------------------------------------------- the converse

  /** In step, a reduction of the compressed driver is one of the original driver too. */
  lemma ReduceReflects(b: Build, z: Pair, i: Item, a: nat, k: nat)
    requires b.Ok() && z.Ok(b) && InStep(b, z.st0, z.st1) && a < b.g.nterminal
    requires TokenMove(b.g, b.res, z.st1[|z.st1| - 1], a).Reduce_?
    requires Reads(b.g, b.states, b.res, z.st1, z.path1, a, i, k)
    ensures TokenMove(b.g, b.rows, z.st0[|z.st0| - 1], a) == TokenMove(b.g, b.res, z.st1[|z.st1| - 1], a)
  {
    hide Build.Ok, InTop, CanBeNext, MayFollow, Walk, TokenMove, StackInv;
    SameTop(b, z);
    StackParts(b.g, b.states, z.st1, z.path1, z.trees1);
    HasAction(b, z.path1, z.trees1, TokenMove(b.g, b.res, z.st1[|z.st1| - 1], a).r, a, k);
    ActionReflects(b, z.path0[|z.path0| - 1], z.st1[|z.st1| - 1], a);
  }

  lemma ActionReflects(b: Build, q: nat, p1: Place, a: nat)
    requires b.Ok() && Same(b, At(q), p1) && a < b.g.nterminal && q < |b.rows| && LiveOn(b.rows[q], a) != []
    requires TokenMove(b.g, b.res, p1, a).Reduce_?
    ensures TokenMove(b.g, b.rows, At(q), a) == TokenMove(b.g, b.res, p1, a)
  {
    OriginalMove(b, q, a);
    hide Build.Ok, TokenMove;
    SameMove(b, q, p1, a);
    ShiftFolds(b, a);
  }

  /** A folded shift is no reduction. */
  lemma ShiftFolds(b: Build, a: nat)
    ensures forall q: nat :: !MoveOf(Fold(Action(a, SHIFT, q), b.auto, b.best)).Reduce_?
  {
  }

  /** So is a shift. */
  lemma ShiftReflects(b: Build, z: Pair, a: nat)
    requires b.Ok() && InStep(b, z.st0, z.st1) && a < b.g.nterminal
    requires var m := TokenMove(b.g, b.res, z.st1[|z.st1| - 1], a); m.Goto_? || m.GotoReduce?
    ensures TokenMove(b.g, b.rows, z.st0[|z.st0| - 1], a).Goto_?
  {
    var q, p1 := z.st0[|z.st0| - 1].s, z.st1[|z.st1| - 1];
    assert p1 == At(q);
    ResRows(b, q, a);
    OriginalMove(b, q, a);
    CompressedMove(b, q, a);
    hide Build.Ok;
  }

  lemma ResRows(b: Build, q: nat, a: nat)
    requires b.Ok() && TokenMove(b.g, b.res, At(q), a) != Error_
    ensures q < |b.res| == |b.rows| == |b.states| == |b.best|
  {
  }

  /** The converse: every accepting run after compression comes from one before it. */
  lemma {:induction false} CompressionReflects(b: Build, z: Pair, input: seq<nat>, trace1: seq<Event>)
    returns (trace: seq<Event>)
    requires b.Ok() && z.Ok(b) && Matches(b, z.st0, z.st1) && Tokenized(b.g, input)
    requires Accepts(b.g, b.res, z.st1, input, trace1)
    ensures Accepts(b.g, b.rows, z.st0, input, trace)
    ensures Thinned(b.g, trace, trace1)
    decreases |trace1|, 2, 0
  {
    if p :| LagsOnTop(b, z.st0, z.st1, p) && |p| > 1 {
      trace := ReflectLag(b, z, p, input, trace1);
    } else {
      LagOfOne(b, z.st0, z.st1);
      trace := ReflectInStep(b, z, input, trace1);
    }
  }

  lemma {:induction false} ReflectLag(b: Build, z: Pair, p: seq<nat>, input: seq<nat>, trace1: seq<Event>)
    returns (trace: seq<Event>)
    requires b.Ok() && z.Ok(b) && LagsOnTop(b, z.st0, z.st1, p) && Tokenized(b.g, input)
    requires Accepts(b.g, b.res, z.st1, input, trace1)
    ensures Accepts(b.g, b.rows, z.st0, input, trace)
    ensures Thinned(b.g, trace, trace1)
    decreases |trace1|, 1, |p|
  {
    hide Build.Ok, StackInv, LagsOnTop, TokenMove, AfterReduce, Matches, InStep, Reads, InTop, CanBeNext;
    if |p| == 1 {
      OneInStep(b, z.st0, z.st1, p);
      trace := ReflectInStep(b, z, input, trace1);
    } else {
      var a := NextToken(input);
      ParserOk(b);
      EndIsToken(b);
      CompressedRowsSound(b);
      LagSizes(b, z, p);
      var i, k := RunReads(b.g, b.states, b.res, z.st1, z.path1, z.trees1, input, trace1);
      ReadsParts(b.g, b.states, b.res, z.st1, z.path1, a, i, k);
      LagHasAction(b, z, p, i, a, k);
      var st := CatchUp(b, z.st0, z.st1, p, a);
      var z' := ReduceOriginal(b, z, a);
      var rest := ReflectLag(b, z', p[1..], input, trace1);
      trace := [Reduced(TokenMove(b.g, b.rows, z.st0[|z.st0| - 1], a).r)] + rest;
    }
  }

  lemma OneInStep(b: Build, st0: seq<Place>, st1: seq<Place>, p: seq<nat>)
    requires LagsOnTop(b, st0, st1, p) && |p| == 1
    ensures InStep(b, st0, st1)
  {
  }

  lemma LagSizes(b: Build, z: Pair, p: seq<nat>)
    requires z.Ok(b) && LagsOnTop(b, z.st0, z.st1, p)
    ensures |z.st0| > 0 && |z.st1| > 0 && StackInv(b.g, b.states, z.st0, z.path0, z.trees0) && p != []
    ensures StackInv(b.g, b.states, z.st1, z.path1, z.trees1)
  {
  }

  /** The original driver's reduction, with its states and trees. */
  lemma ReduceOriginal(b: Build, z: Pair, a: nat) returns (z': Pair)
    requires b.Ok() && z.Ok(b) && a < b.g.nterminal && z.st0 != []
    requires TokenMove(b.g, b.rows, z.st0[|z.st0| - 1], a).Reduce_?
    ensures var o := AfterReduce(b.g, b.rows, z.st0, TokenMove(b.g, b.rows, z.st0[|z.st0| - 1], a).r);
            && o != Failed && (o.Accepted? ==> o.stack == z.st0[..1])
            && (o.Continue? ==>
                  && z'.Ok(b) && z'.st0 == o.stack
                  && z'.st1 == z.st1 && z'.path1 == z.path1 && z'.trees1 == z.trees1)
  {
    FoundRowsSound(b.g, b.states, b.fws, b.rows);
    hide Canonical, IsLalr, ActionRows, Compressed, StackInv, TokenMove, AfterReduce, SoundRows, Reducible, Replaced;
    var r := TokenMove(b.g, b.rows, z.st0[|z.st0| - 1], a).r;
    TopReducible(b.g, b.states, b.rows, z.st0, z.path0, z.trees0, a);
    var path', trees' := ReduceKeeps(b.g, b.states, b.rows, z.st0, z.path0, z.trees0, r, a);
    var o := AfterReduce(b.g, b.rows, z.st0, r);
    z' := if o.Continue? then z.(st0 := o.stack, path0 := path', trees0 := trees') else z;
  }

  /** The compressed driver's reduction, with its states and trees. */
  lemma ReduceCompressed(b: Build, z: Pair, a: nat) returns (z': Pair)
    requires b.Ok() && z.Ok(b) && a < b.g.nterminal && z.st1 != []
    requires TokenMove(b.g, b.res, z.st1[|z.st1| - 1], a).Reduce_?
    ensures var o := AfterReduce(b.g, b.res, z.st1, TokenMove(b.g, b.res, z.st1[|z.st1| - 1], a).r);
            o.Continue? ==>
              && z'.Ok(b) && z'.st1 == o.stack
              && z'.st0 == z.st0 && z'.path0 == z.path0 && z'.trees0 == z.trees0
  {
    CompressedRowsSound(b);
    hide Canonical, IsLalr, ActionRows, Compressed, StackInv, TokenMove, AfterReduce, SoundRows, Reducible, Replaced;
    var r := TokenMove(b.g, b.res, z.st1[|z.st1| - 1], a).r;
    TopReducible(b.g, b.states, b.res, z.st1, z.path1, z.trees1, a);
    var path', trees' := ReduceKeeps(b.g, b.states, b.res, z.st1, z.path1, z.trees1, r, a);
    var o := AfterReduce(b.g, b.res, z.st1, r);
    z' := if o.Continue? then z.(st1 := o.stack, path1 := path', trees1 := trees') else z;
  }

  /** Both drivers shift. */
  lemma ShiftBoth(b: Build, z: Pair, a: nat) returns (z': Pair)
    requires b.Ok() && z.Ok(b) && InStep(b, z.st0, z.st1) && a < b.g.nterminal
    requires var m := TokenMove(b.g, b.res, z.st1[|z.st1| - 1], a); m.Goto_? || m.GotoReduce?
    ensures TokenMove(b.g, b.rows, z.st0[|z.st0| - 1], a).Goto_?
    ensures z'.Ok(b) && Matches(b, z'.st0, z'.st1)
    ensures z'.st0 == z.st0 + Pushed(TokenMove(b.g, b.rows, z.st0[|z.st0| - 1], a))
    ensures z'.st1 == z.st1 + Pushed(TokenMove(b.g, b.res, z.st1[|z.st1| - 1], a))
  {
    ShiftReflects(b, z, a);
    ShiftInStep(b, z.st0, z.st1, a);
    FoundRowsSound(b.g, b.states, b.fws, b.rows);
    CompressedRowsSound(b);
    hide Canonical, IsLalr, ActionRows, Compressed, StackInv, TokenMove, SoundRows, InStep, Pushed;
    var q0 := ShiftKeeps(b.g, b.states, b.rows, z.st0, z.path0, z.trees0, a);
    var q1 := ShiftKeeps(b.g, b.states, b.res, z.st1, z.path1, z.trees1, a);
    z' := Pair(z.st0 + Pushed(TokenMove(b.g, b.rows, z.st0[|z.st0| - 1], a)), z.path0 + [q0], z.trees0 + [Leaf(a)],
               z.st1 + Pushed(TokenMove(b.g, b.res, z.st1[|z.st1| - 1], a)), z.path1 + [q1], z.trees1 + [Leaf(a)]);
  }

  lemma {:induction false} ReflectInStep(b: Build, z: Pair, input: seq<nat>, trace1: seq<Event>)
    returns (trace: seq<Event>)
    requires b.Ok() && z.Ok(b) && InStep(b, z.st0, z.st1) && Tokenized(b.g, input)
    requires Accepts(b.g, b.res, z.st1, input, trace1)
    ensures Accepts(b.g, b.rows, z.st0, input, trace)
    ensures Thinned(b.g, trace, trace1)
    decreases |trace1|, 0, 0
  {
    hide Build.Ok, StackInv, TokenMove, AfterReduce, Matches, InStep, Reads, Pair.Ok;
    InStepTops(b, z.st0, z.st1);
    EndIsToken(b);
    var a := NextToken(input);
    var m := TokenMove(b.g, b.res, z.st1[|z.st1| - 1], a);
    if m.Reduce_? {
      var i, k := PairReads(b, z, input, trace1);
      ReduceReflects(b, z, i, a, k);
      var z0 := ReduceOriginal(b, z, a);
      ReduceInStep(b, z.st0, z.st1, m.r, a);
      if AfterReduce(b.g, b.res, z.st1, m.r).Continue? {
        var z1 := ReduceCompressed(b, z0, a);
        var rest := CompressionReflects(b, z1, input, trace1[1..]);
        trace := [trace1[0]] + rest;
      } else {
        trace := trace1;
      }
    } else {
      var z' := ShiftBoth(b, z, a);
      var rest := CompressionReflects(b, z', input[1..], trace1[1..]);
      trace := [trace1[0]] + rest;
    }
  }

  lemma PairReads(b: Build, z: Pair, input: seq<nat>, trace1: seq<Event>) returns (i: Item, k: nat)
    requires b.Ok() && z.Ok(b) && Accepts(b.g, b.res, z.st1, input, trace1) && Tokenized(b.g, input)
    ensures Reads(b.g, b.states, b.res, z.st1, z.path1, NextToken(input), i, k)
  {
    hide Build.Ok, StackInv, TokenMove, AfterReduce, Reads, Accepts;
    ParserOk(b);
    CompressedRowsSound(b);
    i, k := RunReads(b.g, b.states, b.res, z.st1, z.path1, z.trees1, input, trace1);
  }

  /** From the start, the trace accepts the input before and after compression. */
  ghost predicate AcceptsBefore(b: Build, input: seq<nat>, trace: seq<Event>) {
    Accepts(b.g, b.rows, [At(0)], input, trace)
  }

  ghost predicate AcceptsAfter(b: Build, input: seq<nat>, trace: seq<Event>) {
    Accepts(b.g, b.res, [At(0)], input, trace)
  }

  lemma AfterFromBefore(b: Build, input: seq<nat>, trace: seq<Event>) returns (trace1: seq<Event>)
    requires b.Ok() && Tokenized(b.g, input) && AcceptsBefore(b, input, trace)
    ensures AcceptsAfter(b, input, trace1) && Thinned(b.g, trace, trace1)
  {
    hide Build.Ok, Accepts, Thinned;
    trace1 := CompressionPreservesParsing(b, input, trace);
  }

  lemma BeforeFromAfter(b: Build, input: seq<nat>, trace1: seq<Event>) returns (trace: seq<Event>)
    requires b.Ok() && Tokenized(b.g, input) && AcceptsAfter(b, input, trace1)
    ensures AcceptsBefore(b, input, trace) && Thinned(b.g, trace, trace1)
  {
    hide Build.Ok, Accepts, Thinned;
    var z := StartPair(b);
    StartInStep(b);
    trace := CompressionReflects(b, z, input, trace1);
  }

  /** Compression is exact: both tables accept the same inputs, with the same shifts and the same
      reductions but for skipped unit rules. */
  lemma CompressionIsExact(b: Build, input: seq<nat>)
    requires b.Ok() && Tokenized(b.g, input)
    ensures (exists trace :: AcceptsBefore(b, input, trace)) <==> (exists trace1 :: AcceptsAfter(b, input, trace1))
    ensures forall trace | AcceptsBefore(b, input, trace) :: exists trace1 ::
            AcceptsAfter(b, input, trace1) && Thinned(b.g, trace, trace1)
    ensures forall trace1 | AcceptsAfter(b, input, trace1) :: exists trace ::
            AcceptsBefore(b, input, trace) && Thinned(b.g, trace, trace1)
  {
    hide Build.Ok, AcceptsBefore, AcceptsAfter, Thinned;
    forall trace | AcceptsBefore(b, input, trace)
      ensures exists trace1 :: AcceptsAfter(b, input, trace1) && Thinned(b.g, trace, trace1)
    {
      var trace1 := AfterFromBefore(b, input, trace);
    }
    forall trace1 | AcceptsAfter(b, input, trace1)
      ensures exists trace :: AcceptsBefore(b, input, trace) && Thinned(b.g, trace, trace1)
    {
      var trace := BeforeFromAfter(b, input, trace1);
    }
  }

  lemma StartPair(b: Build) returns (z: Pair)
    requires b.Ok()
    ensures z == Pair([At(0)], [0], [], [At(0)], [0], []) && z.Ok(b)
  {
    z := Pair([At(0)], [0], [], [At(0)], [0], []);
    StackInvStart(b.g, b.states);
  }
}