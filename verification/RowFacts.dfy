/** What the finished actions of the states of a canonical collection have in common. */
module RowFacts {
  import opened Grammars
  import opened Items
  import opened Actions
  import opened Collections
  import opened Conflicts
  import opened FollowSets
  import opened Machines
  import opened Soundness
  import opened Compression

  ghost predicate ActionRows(g: Grammar, states: seq<State>, fws: map<Config, set<nat>>, rows: seq<seq<Action>>) {
    |rows| == |states| && forall s | 0 <= s < |states| :: ActionRow(g, states, fws, s, rows[s])
  }

  /** A live action of state s does what the LR(0) states and the follow sets allow. */
  ghost predicate LiveFact(g: Grammar, states: seq<State>, s: nat, w: Action) {
    || (w.typ == SHIFT && w.sp != g.start && w.sp < g.NSymbol() && ShiftTo(g, states, s, w.sp, w.x))
    || (w.typ == REDUCE && w.sp < g.nterminal && Complete(g, states, s, w.x)
        && (g.rules[w.x].lhs == g.start ==> w.sp == 0))
    || (w == Action(g.start, ACCEPT, 0) && s == 0)
  }

  lemma ShiftFact(g: Grammar, states: seq<State>, s: nat, w: Action)
    requires g.Valid() && g.StartOffRhs() && Canonical(g, states) && s < |states| && w in states[s].ap
    ensures w.typ == SHIFT && w.sp != g.start && w.sp < g.NSymbol() && ShiftTo(g, states, s, w.sp, w.x)
  {
    ShiftNotStart(g, states, s, w);
    assert ActionsOk(g, states, s) && ShiftOk(g, states, s, w);
    var i :| i in states[s].cfp && Shifts(g, i, w.sp);
    assert g.ValidRule(g.rules[i.rule]);
  }

  lemma ReduceFact(g: Grammar, states: seq<State>, fws: map<Config, set<nat>>, s: nat, w: Action)
    requires g.Valid() && g.StartOffRhs() && Canonical(g, states) && IsLalr(g, states, fws) && s < |states|
    requires IsReduce(g, states, fws, s, w)
    ensures Complete(g, states, s, w.x) && (g.rules[w.x].lhs == g.start ==> w.sp == 0)
  {
    var i :| i in states[s].cfp && AsksFor(g, fws, s, i, w);
    assert i == Item(w.x, |g.rules[w.x].rhs|);
    if g.rules[w.x].lhs == g.start {
      StartFollow(g, states, fws, Config(s, i));
    }
  }

  lemma LiveFacts(g: Grammar, states: seq<State>, fws: map<Config, set<nat>>, s: nat, row: seq<Action>, w: Action)
    requires g.Valid() && g.StartOffRhs() && Canonical(g, states) && IsLalr(g, states, fws) && s < |states|
    requires ActionRow(g, states, fws, s, row) && LiveIn(row, w)
    ensures LiveFact(g, states, s, w)
  {
    assert OriginOf(w) == w;
    if w in states[s].ap {
      ShiftFact(g, states, s, w);
    } else if IsReduce(g, states, fws, s, w) {
      ReduceFact(g, states, fws, s, w);
    }
  }

  /** The shape of all its actions, live or not. */
  lemma RowShape(g: Grammar, states: seq<State>, fws: map<Config, set<nat>>, s: nat, row: seq<Action>)
    requires g.Valid() && g.StartOffRhs() && Canonical(g, states) && s < |states| && ActionRow(g, states, fws, s, row)
    ensures LiveOffTokens(g, row) && ReducesOnTokens(g, row) && LowSymbols(g, row)
    ensures forall a | a in row :: (a.typ == SHIFT ==> a.x < |states|) && (a.typ == REDUCE ==> a.x < |g.rules|)
  {
    forall a | a in row
      ensures a.sp < g.NSymbol() && (a.sp >= g.nterminal ==> Live(a))
      ensures (a.typ == REDUCE ==> a.sp < g.nterminal && a.x < |g.rules|)
      ensures a.typ == SHIFT ==> a.x < |states|
    {
      var w := OriginOf(a);
      assert Wanted(g, states, fws, s, w);
      if w in states[s].ap { ShiftFact(g, states, s, w); }
      if a.sp >= g.nterminal {
        NotReduced(g, states, fws, s, row, a);
      }
    }
  }

  /** Nothing competes with the action on a nonterminal. */
  lemma NotReduced(g: Grammar, states: seq<State>, fws: map<Config, set<nat>>, s: nat, row: seq<Action>, a: Action)
    requires g.Valid() && g.StartOffRhs() && Canonical(g, states) && s < |states| && ActionRow(g, states, fws, s, row)
    requires a in row && a.sp >= g.nterminal
    ensures Live(a)
  {
    var i :| 0 <= i < |row| && row[i] == a;
    assert GroupLives(row, row[i].sp);
    var j :| 0 <= j < |row| && row[j].sp == a.sp && Live(row[j]);
    assert row[j] in row;
    SameWanted(g, states, fws, s, OriginOf(a), OriginOf(row[j]));
  }

  lemma SameWanted(g: Grammar, states: seq<State>, fws: map<Config, set<nat>>, s: nat, v: Action, w: Action)
    requires g.Valid() && g.StartOffRhs() && Canonical(g, states) && s < |states|
    requires Wanted(g, states, fws, s, v) && Wanted(g, states, fws, s, w) && v.sp == w.sp >= g.nterminal
    ensures v == w
  {
    if v in states[s].ap { ShiftFact(g, states, s, v); }
    if w in states[s].ap { ShiftFact(g, states, s, w); }
    assert ActionsOk(g, states, s) && OnePerSymbol(states[s].ap);
  }

  /** Where the LR(0) states have a goto on x, the row has a live action; on a nonterminal it is
      that shift. */
  lemma GotoLive(g: Grammar, states: seq<State>, fws: map<Config, set<nat>>, s: nat, row: seq<Action>, x: nat)
    requires g.Valid() && g.StartOffRhs() && Canonical(g, states) && IsLalr(g, states, fws) && s < |states|
    requires ActionRow(g, states, fws, s, row) && HasGoto(g, states, s, x)
    ensures LiveOn(row, x) != []
    ensures x >= g.nterminal ==> LiveOn(row, x)[0].typ == SHIFT && ShiftTo(g, states, s, x, LiveOn(row, x)[0].x)
  {
    hide Canonical, IsLalr, ActionRow, LiveOn;
    var w := ShiftOn(g, states, s, x);
    WantedLives(g, states, fws, s, row, w);
    NoStartGoto(g, states, s);
    LiveFacts(g, states, fws, s, row, LiveOn(row, x)[0]);
  }

  lemma ShiftOn(g: Grammar, states: seq<State>, s: nat, x: nat) returns (w: Action)
    requires Canonical(g, states) && s < |states| && HasGoto(g, states, s, x)
    ensures w in states[s].ap && w.sp == x
  {
    var i :| i in states[s].cfp && Shifts(g, i, x);
    assert ShiftsComplete(g, states, s) && CanShift(g, i) && SymbolAt(g, i) == x;
    w :| w in states[s].ap && w.sp == x;
  }

  /** Something is live on the lookahead of a wanted action. */
  lemma WantedLives(g: Grammar, states: seq<State>, fws: map<Config, set<nat>>, s: nat, row: seq<Action>, w: Action)
    requires s < |states| && ActionRow(g, states, fws, s, row) && Wanted(g, states, fws, s, w)
    ensures LiveOn(row, w.sp) != []
  {
    hide Wanted;
    var a :| a in row && OriginOf(a) == w;
    var k :| 0 <= k < |row| && row[k] == a;
    assert GroupLives(row, row[k].sp);
    var j :| 0 <= j < |row| && row[j].sp == w.sp && Live(row[j]);
    assert row[j] in row;
  }

  lemma AcceptLive(g: Grammar, states: seq<State>, fws: map<Config, set<nat>>, row: seq<Action>)
    requires g.Valid() && Canonical(g, states) && ActionRow(g, states, fws, 0, row)
    ensures LiveOn(row, g.start) == [Action(g.start, ACCEPT, 0)]
  {
    var w := Action(g.start, ACCEPT, 0);
    assert Wanted(g, states, fws, 0, w);
    var a :| a in row && OriginOf(a) == w;
    assert a == w;
    LiveOnUnique(row, w);
  }
}
