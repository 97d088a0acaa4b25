/** The rows that `FindActions` leaves, and those that `CompressTables` makes of them, are sound:
    every move is one that the LR(0) states and the follow sets allow. */
module SoundTables {
  import opened Grammars
  import opened Items
  import opened Actions
  import opened Collections
  import opened Conflicts
  import opened FollowSets
  import opened Machines
  import opened Soundness
  import opened Compression
  import opened RowFacts
  import opened CompressedTables
  import opened Resorting

  // ---------------------------------------------------------------- before compression

  /** Only compression makes defaults. */
  lemma NoDefaultYet(g: Grammar, states: seq<State>, fws: map<Config, set<nat>>, s: nat, row: seq<Action>)
    requires g.Valid() && g.StartOffRhs() && Canonical(g, states) && s < |states| && ActionRow(g, states, fws, s, row)
    ensures LiveOn(row, g.NSymbol()) == []
  {
    RowShape(g, states, fws, s, row);
    forall a | a in row
      ensures a.sp != g.NSymbol()
    {
    }
    NoneOn(row, g.NSymbol());
  }

  lemma FoundOnToken(g: Grammar, states: seq<State>, fws: map<Config, set<nat>>, rows: seq<seq<Action>>, s: nat, a: nat)
    requires g.Valid() && g.StartOffRhs() && Canonical(g, states) && IsLalr(g, states, fws)
    requires ActionRows(g, states, fws, rows) && s < |states| && a < g.nterminal
    ensures SoundOnToken(g, states, s, a, TokenMove(g, rows, At(s), a))
  {
    var row := rows[s];
    assert ActionRow(g, states, fws, s, row);
    NoDefaultYet(g, states, fws, s, row);
    if LiveOn(row, a) != [] {
      LiveFacts(g, states, fws, s, row, LiveOn(row, a)[0]);
    }
  }

  lemma FoundOnGoto(g: Grammar, states: seq<State>, fws: map<Config, set<nat>>, rows: seq<seq<Action>>, s: nat, x: nat)
    requires g.Valid() && g.StartOffRhs() && Canonical(g, states) && IsLalr(g, states, fws)
    requires ActionRows(g, states, fws, rows) && s < |states| && HasGoto(g, states, s, x) && x >= g.nterminal
    ensures SoundOnGoto(g, states, s, x, GotoMove(rows, s, x))
  {
    assert ActionRow(g, states, fws, s, rows[s]);
    GotoLive(g, states, fws, s, rows[s], x);
    NoStartGoto(g, states, s);
    UnitChainRefl(g, x);
  }

  lemma FoundRowsSound(g: Grammar, states: seq<State>, fws: map<Config, set<nat>>, rows: seq<seq<Action>>)
    requires g.Valid() && g.StartOffRhs() && Canonical(g, states) && IsLalr(g, states, fws)
    requires ActionRows(g, states, fws, rows)
    ensures SoundRows(g, states, rows)
  {
    assert |states| > 0 && |rows| == |states|;
    hide Canonical, IsLalr, SoundOnToken, SoundOnGoto, GotoMove, TokenMove, HasGoto, ActionRows;
    forall s, a | 0 <= s < |states| && 0 <= a < g.nterminal
      ensures SoundOnToken(g, states, s, a, TokenMove(g, rows, At(s), a))
    {
      FoundOnToken(g, states, fws, rows, s, a);
    }
    forall s: nat, x: nat | s < |states| && HasGoto(g, states, s, x) && x >= g.nterminal
      ensures SoundOnGoto(g, states, s, x, GotoMove(rows, s, x))
    {
      FoundOnGoto(g, states, fws, rows, s, x);
    }
    FoundOnStart(g, states, fws, rows);
  }

  lemma FoundOnStart(g: Grammar, states: seq<State>, fws: map<Config, set<nat>>, rows: seq<seq<Action>>)
    requires g.Valid() && Canonical(g, states) && ActionRows(g, states, fws, rows)
    ensures SoundOnGoto(g, states, 0, g.start, GotoMove(rows, 0, g.start))
  {
    assert ActionRow(g, states, fws, 0, rows[0]);
    AcceptLive(g, states, fws, rows[0]);
  }

  // ---------------------------------------------------------------- lookups in compressed rows

  /** A grammar, its states and follow sets, and its rows before and after `CompressTables`. */
  datatype Build = Build(g: Grammar, states: seq<State>, fws: map<Config, set<nat>>, rows: seq<seq<Action>>,
                         best: seq<int>, auto: seq<bool>, res: seq<seq<Action>>) {

    ghost predicate Ok() {
      && g.Valid() && g.StartOffRhs()
      && Canonical(g, states) && IsLalr(g, states, fws)
      && ActionRows(g, states, fws, rows)
      && Compressed(g, rows, best, auto, res)
    }

    /** The row of state s once its shifts are folded, before unit rules are skipped. */
    function Mid(s: nat): seq<Action>
      requires s < |rows| && s < |best|
    {
      Folded(g, rows[s], best[s], auto, best)
    }
  }

  /** The folded row by its lookups: on {default} the default, on any other symbol what it had,
      unless that became the default. */
  function FoldedOn(g: Grammar, row: seq<Action>, own: int, auto: seq<bool>, best: seq<int>, x: nat): seq<Action> {
    if x == g.NSymbol() then (if own >= 0 then [Action(x, REDUCE, own)] else [])
    else
      var r := LiveOn(row, x);
      if r == [] || Reduces(r[0], own) then [] else [Fold(r[0], auto, best)]
  }

  lemma MidLookup(g: Grammar, row: seq<Action>, own: int, auto: seq<bool>, best: seq<int>, x: nat)
    requires OneLive(row) && LowSymbols(g, row) && x <= g.NSymbol()
    ensures LiveOn(Folded(g, row, own, auto, best), x) == FoldedOn(g, row, own, auto, best, x)
  {
    var mid := Folded(g, row, own, auto, best);
    var r := LiveOn(row, x);
    forall b | b in mid && b.sp == x
      ensures FoldedOn(g, row, own, auto, best, x) == [b]
    {
      InFolded(g, row, own, auto, best, b);
      var w :| Kept(g, row, own, w) && b == Fold(w, auto, best);
      if LiveIn(row, w) { LiveOnUnique(row, w); }
    }
    if x < g.NSymbol() && r != [] && !Reduces(r[0], own) {
      var w := r[0];
      assert Kept(g, row, own, w);
      InFolded(g, row, own, auto, best, Fold(w, auto, best));
      LiveOnOnly(mid, x, Fold(w, auto, best));
    } else if x == g.NSymbol() && own >= 0 {
      var d := Action(x, REDUCE, own);
      assert Kept(g, row, own, d) && Fold(d, auto, best) == d;
      InFolded(g, row, own, auto, best, d);
      LiveOnOnly(mid, x, d);
    } else {
      NoneOn(mid, x);
    }
  }

  /** On a token, or as the default, nothing is renamed. */
  lemma ClimbStops(g: Grammar, mid: seq<Action>, x: nat, a: Action)
    requires Climbs(g, mid, x, a)
    requires LiveOn(mid, x) != [] && !UnitAction(g, LiveOn(mid, x)[0])
    ensures a == LiveOn(mid, x)[0]
  {
    var p :| p != [] && p[0] == x && Climb(g, mid, p, a);
    assert |p| > 1 ==> Renames(g, mid, p[0], p[1]);
  }

  lemma Facts(b: Build, s: nat)
    requires b.Ok() && s < |b.states|
    ensures |b.rows| == |b.states| == |b.best| == |b.auto| == |b.res|
    ensures ActionRow(b.g, b.states, b.fws, s, b.rows[s]) && IsBest(b.g, b.rows[s], b.best[s])
    ensures b.auto[s] <==> Automatic(b.rows[s], b.best[s])
    ensures CompressedRow(b.g, b.rows[s], b.best[s], b.auto, b.best, b.res[s])
    ensures BestOk(b.g, b.rows, b.best, b.auto)
    ensures OneLive(b.rows[s]) && LowSymbols(b.g, b.rows[s])
  {
    assert ActionRow(b.g, b.states, b.fws, s, b.rows[s]);
    RowShape(b.g, b.states, b.fws, s, b.rows[s]);
  }

  /** On a token, and for the default, the compressed row is the folded one. */
  lemma CompressedLookup(b: Build, s: nat, x: nat)
    requires b.Ok() && s < |b.states| && |b.rows| == |b.states| == |b.best| == |b.res|
    requires x < b.g.nterminal || x == b.g.NSymbol()
    ensures LiveOn(b.res[s], x) == FoldedOn(b.g, b.rows[s], b.best[s], b.auto, b.best, x)
  {
    hide *;
    Facts(b, s);
    TokensAreSymbols(b);
    RowLookup(b.g, b.rows[s], b.best[s], b.auto, b.best, b.res[s], x);
  }

  lemma TokensAreSymbols(b: Build)
    requires b.Ok()
    ensures b.g.nterminal < b.g.NSymbol()
  {
  }

  lemma RowLookup(g: Grammar, row: seq<Action>, own: int, auto: seq<bool>, best: seq<int>, res: seq<Action>, x: nat)
    requires CompressedRow(g, row, own, auto, best, res) && OneLive(row) && LowSymbols(g, row)
    requires x <= g.NSymbol() && (x < g.nterminal || x == g.NSymbol() || LiveOn(row, x) == [Action(x, ACCEPT, 0)])
    ensures LiveOn(res, x) == FoldedOn(g, row, own, auto, best, x)
  {
    hide OneLive, LowSymbols, Folded, Climbs, LiveOn;
    MidLookup(g, row, own, auto, best, x);
    if LiveOn(res, x) != [] {
      ClimbStops(g, Folded(g, row, own, auto, best), x, LiveOn(res, x)[0]);
    }
  }

  // ---------------------------------------------------------------- after compression

  lemma AutoBlind(b: Build, q: nat)
    requires b.Ok() && q < |b.auto| && b.auto[q]
    ensures q < |b.best| && b.best[q] >= 0 && Blind(b.g, b.best[q]) && Complete(b.g, b.states, q, b.best[q])
  {
    Facts(b, q);
    AutomaticIsBlind(b.g, b.states, b.fws, q, b.rows[q], b.best[q]);
  }

  lemma DefaultComplete(b: Build, s: nat)
    requires b.Ok() && s < |b.best| && b.best[s] >= 0
    ensures Complete(b.g, b.states, s, b.best[s]) && b.best[s] < |b.g.rules| && b.g.rules[b.best[s]].lhs != b.g.start
  {
    Facts(b, s);
    BestComplete(b.g, b.states, b.fws, s, b.rows[s], b.best[s]);
  }

  lemma LiveFactOf(b: Build, s: nat, x: nat)
    requires b.Ok() && s < |b.states| && s < |b.rows| && LiveOn(b.rows[s], x) != []
    ensures LiveFact(b.g, b.states, s, LiveOn(b.rows[s], x)[0])
  {
    Facts(b, s);
    LiveFacts(b.g, b.states, b.fws, s, b.rows[s], LiveOn(b.rows[s], x)[0]);
  }

  lemma OwnOnToken(b: Build, s: nat, a: nat)
    requires b.Ok() && s < |b.states| && s < |b.rows| && a < b.g.nterminal && LiveOn(b.rows[s], a) != []
    ensures SoundOnToken(b.g, b.states, s, a, MoveOf(Fold(LiveOn(b.rows[s], a)[0], b.auto, b.best)))
  {
    hide *;
    var w := LiveOn(b.rows[s], a)[0];
    LiveFactOf(b, s, a);
    AllAutoOk(b, w.x);
    StartIsNonterminal(b);
    FoldedOnToken(b, s, w);
  }

  lemma StartIsNonterminal(b: Build)
    requires b.Ok()
    ensures b.g.start >= b.g.nterminal
  {
  }

  lemma FoldedOnToken(b: Build, s: nat, w: Action)
    requires LiveFact(b.g, b.states, s, w) && AutoOk(b, w.x) && w.sp < b.g.nterminal <= b.g.start
    ensures SoundOnToken(b.g, b.states, s, w.sp, MoveOf(Fold(w, b.auto, b.best)))
  {
    hide ShiftTo, Blind;
    var a := Fold(w, b.auto, b.best);
    if a.typ == SHIFTREDUCE {
      assert ShiftTo(b.g, b.states, s, w.sp, w.x) && Complete(b.g, b.states, w.x, a.x);
    }
  }

  /** The action on token a in the compressed rows. */
  lemma CompressedMove(b: Build, s: nat, a: nat)
    requires b.Ok() && s < |b.states| && |b.rows| == |b.states| == |b.best| == |b.res| && a < b.g.nterminal
    ensures TokenMove(b.g, b.res, At(s), a) ==
      var own := LiveOn(b.rows[s], a);
      if own != [] && !Reduces(own[0], b.best[s]) then MoveOf(Fold(own[0], b.auto, b.best))
      else if b.best[s] >= 0 then Reduce_(b.best[s]) else Error_
  {
    hide Build.Ok, LiveOn, Fold;
    TokensAreSymbols(b);
    CompressedLookup(b, s, a);
    CompressedLookup(b, s, b.g.NSymbol());
  }

  lemma CompressedOnToken(b: Build, s: nat, a: nat)
    requires b.Ok() && s < |b.states| && a < b.g.nterminal
    ensures SoundOnToken(b.g, b.states, s, a, TokenMove(b.g, b.res, At(s), a))
  {
    hide Build.Ok, ActionRow, CompressedRow, Automatic, IsBest, BestOk, LowSymbols, OneLive, LiveOn, Fold, TokenMove;
    hide Complete, ShiftTo, Blind;
    Facts(b, s);
    CompressedMove(b, s, a);
    var own := LiveOn(b.rows[s], a);
    if own != [] && !Reduces(own[0], b.best[s]) {
      OwnOnToken(b, s, a);
    } else if b.best[s] >= 0 {
      DefaultComplete(b, s);
    }
  }

  /** One renaming: a shift to an automatic state of a unit rule, whose left-hand side has a goto. */
  lemma RenameMeans(b: Build, s: nat, x: nat, y: nat)
    requires b.Ok() && s < |b.states| && |b.rows| == |b.states| == |b.best| == |b.auto|
    requires Renames(b.g, b.Mid(s), x, y) && x < b.g.NSymbol()
    ensures LiveOn(b.rows[s], x) != []
    ensures var w := LiveOn(b.rows[s], x)[0];
            w.typ == SHIFT && w.x < |b.auto| && b.auto[w.x] && b.best[w.x] >= 0 && UnitRule(b.g, b.best[w.x], x, y)
    ensures HasGoto(b.g, b.states, s, y) && b.g.Nonterminal(y) && y != b.g.start
  {
    Facts(b, s);
    MidLookup(b.g, b.rows[s], b.best[s], b.auto, b.best, x);
    var w := LiveOn(b.rows[s], x)[0];
    LiveFactOf(b, s, x);
    FoldedUnit(b.g, b.states, b.fws, b.rows, b.best, b.auto, s, w);
    assert b.g.ValidRule(b.g.rules[b.best[w.x]]);
    NoStartGoto(b.g, b.states, s);
  }

  /** x has a goto in state s, and may be the left-hand side of a reduction that goes on. */
  ghost predicate Goes(b: Build, s: nat, x: nat) {
    HasGoto(b.g, b.states, s, x) && b.g.Nonterminal(x) && x != b.g.start
  }

  /** Every symbol along a path of renamings has its goto. */
  lemma {:induction false} ClimbGotos(b: Build, s: nat, p: seq<nat>, a: Action, i: nat)
    requires b.Ok() && s < |b.states| && |b.rows| == |b.states| == |b.best| == |b.auto| && i < |p|
    requires Climb(b.g, b.Mid(s), p, a) && Goes(b, s, p[0])
    ensures Goes(b, s, p[i])
    ensures i > 0 ==> UnitStep(b.g, p[i - 1], p[i])
  {
    hide Build.Ok, HasGoto;
    if i > 0 {
      ClimbGotos(b, s, p, a, i - 1);
      assert Renames(b.g, b.Mid(s), p[i - 1], p[i]);
      RenameMeans(b, s, p[i - 1], p[i]);
    }
  }

  /** Where a climb ends, the shift of the last symbol is folded. */
  lemma ClimbEnd(b: Build, s: nat, y: nat)
    requires b.Ok() && s < |b.states| && |b.rows| == |b.states| == |b.best| == |b.auto| && Goes(b, s, y)
    ensures var r := LiveOn(b.rows[s], y);
            && r != [] && r[0].typ == SHIFT && ShiftTo(b.g, b.states, s, y, r[0].x)
            && LiveOn(b.Mid(s), y) == [Fold(r[0], b.auto, b.best)]
  {
    Facts(b, s);
    GotoLive(b.g, b.states, b.fws, s, b.rows[s], y);
    MidLookup(b.g, b.rows[s], b.best[s], b.auto, b.best, y);
  }

  /** The goto on x in the compressed rows: that of a symbol which unit rules make of x. */
  lemma CompressedGoto(b: Build, s: nat, x: nat) returns (p: seq<nat>)
    requires b.Ok() && s < |b.states| && |b.rows| == |b.states| == |b.best| == |b.auto| == |b.res| && Goes(b, s, x)
    ensures LiveOn(b.res[s], x) != [] && p != [] && p[0] == x && UnitPath(b.g, p)
    ensures Climb(b.g, b.Mid(s), p, LiveOn(b.res[s], x)[0])
    ensures Goes(b, s, p[|p| - 1])
  {
    Facts(b, s);
    ClimbEnd(b, s, x);
    var a := LiveOn(b.res[s], x)[0];
    p :| p != [] && p[0] == x && Climb(b.g, b.Mid(s), p, a);
    hide Build.Ok, ActionRow, CompressedRow, Automatic, IsBest, BestOk, LowSymbols, OneLive, Climb, Goes;
    forall i | 0 <= i < |p|
      ensures Goes(b, s, p[i]) && (i > 0 ==> UnitStep(b.g, p[i - 1], p[i]))
    {
      ClimbGotos(b, s, p, a, i);
    }
  }

  /** After a reduction to x, state s goes where its original row sends the last symbol of p. */
  ghost predicate Via(b: Build, s: nat, x: nat, p: seq<nat>) {
    && s < |b.rows| == |b.best| == |b.res|
    && p != [] && p[0] == x && UnitPath(b.g, p)
    && LiveOn(b.res[s], x) != [] && Climb(b.g, b.Mid(s), p, LiveOn(b.res[s], x)[0])
    && var r := LiveOn(b.rows[s], p[|p| - 1]);
       && r != [] && r[0].typ == SHIFT && ShiftTo(b.g, b.states, s, p[|p| - 1], r[0].x)
       && GotoMove(b.res, s, x) == MoveOf(Fold(r[0], b.auto, b.best))
  }

  lemma CompressedGotoMove(b: Build, s: nat, x: nat) returns (p: seq<nat>)
    requires b.Ok() && s < |b.states| && |b.rows| == |b.states| == |b.best| == |b.auto| == |b.res| && Goes(b, s, x)
    ensures Via(b, s, x, p)
  {
    hide *;
    p := CompressedGoto(b, s, x);
    ClimbEnd(b, s, p[|p| - 1]);
    ViaFrom(b, s, x, p);
  }

  lemma ViaFrom(b: Build, s: nat, x: nat, p: seq<nat>)
    requires s < |b.rows| == |b.best| == |b.res|
    requires p != [] && p[0] == x && UnitPath(b.g, p)
    requires LiveOn(b.res[s], x) != [] && Climb(b.g, b.Mid(s), p, LiveOn(b.res[s], x)[0])
    requires var r := LiveOn(b.rows[s], p[|p| - 1]);
             && r != [] && r[0].typ == SHIFT && ShiftTo(b.g, b.states, s, p[|p| - 1], r[0].x)
             && LiveOn(b.Mid(s), p[|p| - 1]) == [Fold(r[0], b.auto, b.best)]
    ensures Via(b, s, x, p)
  {
    hide UnitPath, ShiftTo, Folded, Renames;
  }

  ghost predicate AutoOk(b: Build, q: nat) {
    q < |b.auto| && b.auto[q] ==>
      q < |b.best| && b.best[q] >= 0 && Blind(b.g, b.best[q]) && Complete(b.g, b.states, q, b.best[q])
  }

  lemma AllAutoOk(b: Build, q: nat)
    requires b.Ok()
    ensures AutoOk(b, q)
  {
    if q < |b.auto| && b.auto[q] { AutoBlind(b, q); }
  }

  lemma FoldedGoto(b: Build, s: nat, x: nat, y: nat, w: Action)
    requires x != b.g.start && UnitChain(b.g, x, y) && w.typ == SHIFT && ShiftTo(b.g, b.states, s, y, w.x)
    requires AutoOk(b, w.x)
    ensures SoundOnGoto(b.g, b.states, s, x, MoveOf(Fold(w, b.auto, b.best)))
  {
    hide UnitChain, ShiftTo, Complete, Blind;
    var a := Fold(w, b.auto, b.best);
    if a.typ == SHIFTREDUCE {
      assert UnitChain(b.g, x, y) && ShiftTo(b.g, b.states, s, y, w.x) && Complete(b.g, b.states, w.x, a.x);
    }
  }

  lemma CompressedOnGoto(b: Build, s: nat, x: nat)
    requires b.Ok() && s < |b.states| && HasGoto(b.g, b.states, s, x) && x >= b.g.nterminal
    ensures SoundOnGoto(b.g, b.states, s, x, GotoMove(b.res, s, x))
  {
    Facts(b, s);
    NoStartGoto(b.g, b.states, s);
    HasGotoSymbol(b.g, b.states, s, x);
    assert Goes(b, s, x);
    hide Build.Ok, ActionRow, CompressedRow, Automatic, IsBest, BestOk, LowSymbols, OneLive, UnitPath, Goes;
    hide SoundOnGoto, Climb, GotoMove, ShiftTo, HasGoto, AutoOk;
    var p := CompressedGotoMove(b, s, x);
    assert UnitChain(b.g, x, p[|p| - 1]);
    AllAutoOk(b, LiveOn(b.rows[s], p[|p| - 1])[0].x);
    FoldedGoto(b, s, x, p[|p| - 1], LiveOn(b.rows[s], p[|p| - 1])[0]);
  }

  lemma HasGotoSymbol(g: Grammar, states: seq<State>, s: nat, x: nat)
    requires g.Valid() && HasGoto(g, states, s, x)
    ensures x < g.NSymbol()
  {
    var i :| i in states[s].cfp && Shifts(g, i, x);
    assert g.ValidRule(g.rules[i.rule]);
  }

  lemma CompressedOnStart(b: Build)
    requires b.Ok()
    ensures SoundOnGoto(b.g, b.states, 0, b.g.start, GotoMove(b.res, 0, b.g.start))
  {
    hide Build.Ok, ActionRow, CompressedRow, Automatic, IsBest, BestOk, LowSymbols, OneLive, LiveOn;
    AcceptOf(b);
    Facts(b, 0);
    RowLookup(b.g, b.rows[0], b.best[0], b.auto, b.best, b.res[0], b.g.start);
  }

  lemma AcceptOf(b: Build)
    requires b.Ok()
    ensures |b.rows| == |b.states| > 0 && LiveOn(b.rows[0], b.g.start) == [Action(b.g.start, ACCEPT, 0)]
    ensures b.g.start < b.g.NSymbol()
  {
    AcceptLive(b.g, b.states, b.fws, b.rows[0]);
  }

  lemma CompressedRowsSound(b: Build)
    requires b.Ok()
    ensures SoundRows(b.g, b.states, b.res)
  {
    hide Build.Ok, SoundOnToken, SoundOnGoto, GotoMove, TokenMove, HasGoto, LiveOn, CompressedRow, ActionRow, IsBest;
    hide Automatic, BestOk, OneLive, LowSymbols;
    AcceptOf(b);
    Facts(b, 0);
    forall s, a | 0 <= s < |b.states| && 0 <= a < b.g.nterminal
      ensures SoundOnToken(b.g, b.states, s, a, TokenMove(b.g, b.res, At(s), a))
    {
      CompressedOnToken(b, s, a);
    }
    forall s: nat, x: nat | s < |b.states| && HasGoto(b.g, b.states, s, x) && x >= b.g.nterminal
      ensures SoundOnGoto(b.g, b.states, s, x, GotoMove(b.res, s, x))
    {
      CompressedOnGoto(b, s, x);
    }
    CompressedOnStart(b);
  }

  // ---------------------------------------------------------------- ready for the tables

  /** An action of the folded row. */
  lemma FoldedShape(b: Build, s: nat, y: nat)
    requires b.Ok() && s < |b.rows| && s < |b.best| && LiveOn(b.Mid(s), y) != []
    ensures var c := LiveOn(b.Mid(s), y)[0];
            && c.typ != ERROR && c.sp <= b.g.NSymbol()
            && (c.typ == SHIFT ==> c.x < |b.auto| && !b.auto[c.x])
            && (c.typ == REDUCE || c.typ == SHIFTREDUCE ==> c.x < |b.g.rules|)
  {
    hide *;
    var c := LiveOn(b.Mid(s), y)[0];
    MidIsFolded(b, s);
    InFolded(b.g, b.rows[s], b.best[s], b.auto, b.best, c);
    var w :| Kept(b.g, b.rows[s], b.best[s], w) && c == Fold(w, b.auto, b.best);
    KeptCases(b.g, b.rows[s], b.best[s], w);
    if LiveIn(b.rows[s], w) {
      LiveFactIn(b, s, w);
      AllAutoOk(b, w.x);
      FoldedLiveShape(b, s, w);
    } else {
      DefaultComplete(b, s);
      FoldNotShift(w, b.auto, b.best);
    }
  }

  lemma FoldNotShift(w: Action, auto: seq<bool>, best: seq<int>)
    ensures w.typ != SHIFT ==> Fold(w, auto, best) == w
  {
  }

  lemma MidIsFolded(b: Build, s: nat)
    requires s < |b.rows| && s < |b.best|
    ensures b.Mid(s) == Folded(b.g, b.rows[s], b.best[s], b.auto, b.best)
  {
  }

  lemma KeptCases(g: Grammar, row: seq<Action>, best: int, a: Action)
    requires Kept(g, row, best, a)
    ensures LiveIn(row, a) || (best >= 0 && a == Action(g.NSymbol(), REDUCE, best) && a.sp == |g.symbols|)
    ensures g.NSymbol() == |g.symbols|
  {
  }

  lemma LiveFactIn(b: Build, s: nat, w: Action)
    requires b.Ok() && s < |b.rows| && LiveIn(b.rows[s], w)
    ensures LiveFact(b.g, b.states, s, w) && b.g.start < b.g.NSymbol() && |b.auto| == |b.states| == |b.best|
    ensures b.g.nterminal < b.g.NSymbol()
  {
    Facts(b, s);
    LiveFacts(b.g, b.states, b.fws, s, b.rows[s], w);
  }

  lemma FoldedLiveShape(b: Build, s: nat, w: Action)
    requires LiveFact(b.g, b.states, s, w) && AutoOk(b, w.x) && |b.auto| == |b.states| == |b.best|
    requires b.g.start < b.g.NSymbol() && b.g.nterminal < b.g.NSymbol()
    ensures var c := Fold(w, b.auto, b.best);
            && c.typ != ERROR && c.sp <= b.g.NSymbol()
            && (c.typ == SHIFT ==> c.x < |b.auto| && !b.auto[c.x])
            && (c.typ == REDUCE || c.typ == SHIFTREDUCE ==> c.x < |b.g.rules|)
  {
    hide HasGoto, Kernel, Goto;
  }

  lemma CompressedShape(b: Build, dflt: seq<int>, s: nat, a: Action)
    requires b.Ok() && Recorded(b.auto, dflt, b.best) && s < |b.res| && LiveIn(b.res[s], a)
    ensures a.typ != ERROR && a.sp <= b.g.NSymbol()
    ensures a.typ == SHIFT ==> a.x < |b.auto| && !b.auto[a.x]
    ensures a.typ == REDUCE || a.typ == SHIFTREDUCE ==> a.x < |b.g.rules|
    ensures a.sp == b.g.NSymbol() ==> a.typ == REDUCE && (s < |b.auto| && s < |dflt| && b.auto[s] ==> dflt[s] == a.x)
  {
    hide *;
    SizesOf(b);
    var p := ClimbOf(b, s, a);
    FoldedShape(b, s, p[|p| - 1]);
    if |p| > 1 { FoldedShape(b, s, p[0]); }
    if a.sp == b.g.NSymbol() { DefaultShape(b, dflt, s, a); }
  }

  lemma SizesOf(b: Build)
    requires b.Ok()
    ensures |b.rows| == |b.states| == |b.best| == |b.auto| == |b.res|
  {
  }

  lemma ClimbOf(b: Build, s: nat, a: Action) returns (p: seq<nat>)
    requires b.Ok() && s < |b.res| == |b.rows| == |b.best| == |b.states| && LiveIn(b.res[s], a)
    ensures p != [] && p[0] == a.sp
    ensures var r := LiveOn(b.Mid(s), p[|p| - 1]); r != [] && a == r[0].(sp := p[0]) && r[0].sp == p[|p| - 1]
    ensures var r := LiveOn(b.Mid(s), p[0]); r != [] && r[0].sp == p[0]
  {
    hide Build.Ok, ActionRow, Automatic, IsBest, BestOk, LowSymbols, Folded;
    Facts(b, s);
    LiveOnUnique(b.res[s], a);
    p :| p != [] && p[0] == a.sp && Climb(b.g, b.Mid(s), p, a);
    assert |p| > 1 ==> Renames(b.g, b.Mid(s), p[0], p[1]);
  }

  lemma DefaultShape(b: Build, dflt: seq<int>, s: nat, a: Action)
    requires b.Ok() && Recorded(b.auto, dflt, b.best) && s < |b.res| == |b.rows| == |b.best| == |b.states|
    requires LiveIn(b.res[s], a)
    requires a.sp == b.g.NSymbol()
    ensures a.typ == REDUCE && (s < |b.auto| && s < |dflt| && b.auto[s] ==> dflt[s] == a.x)
  {
    hide Build.Ok, ActionRow, Automatic, IsBest, BestOk, LowSymbols, CompressedRow, Reduces;
    Facts(b, s);
    LiveOnUnique(b.res[s], a);
    CompressedLookup(b, s, a.sp);
  }

  lemma CompressedTableRows(b: Build, dflt: seq<int>)
    requires b.Ok() && Recorded(b.auto, dflt, b.best)
    ensures TableRows(b.g, b.auto, dflt, b.res)
  {
    Facts(b, 0);
    forall s | 0 <= s < |b.res|
      ensures TableRow(b.g, b.auto, dflt, s, b.res[s])
    {
      Facts(b, s);
      forall a | LiveIn(b.res[s], a)
        ensures a.typ != ERROR && a.sp <= b.g.NSymbol()
        ensures a.typ == SHIFT ==> a.x < |b.auto| && !b.auto[a.x]
        ensures a.typ == REDUCE || a.typ == SHIFTREDUCE ==> a.x < |b.g.rules|
        ensures a.sp == b.g.NSymbol() ==>
                a.typ == REDUCE && (s < |b.auto| && s < |dflt| && b.auto[s] ==> dflt[s] == a.x)
      {
        CompressedShape(b, dflt, s, a);
      }
    }
  }

  /** Every live action of a compressed row has a code of its own, which the driver reads back: a shift goes to a
      state below nxstate. */
  lemma EmittedCodable(b: Build, dflt: seq<int>, sorted: seq<nat>, statenum: seq<nat>, nxstate: nat, s: nat, a: Action)
    requires b.Ok() && Recorded(b.auto, dflt, b.best)
    requires Renumbered(|b.auto|, sorted, statenum) && Trimmed(b.auto, sorted, nxstate)
    requires s < |b.res| && LiveIn(b.res[s], a)
    ensures var c := Codes(nxstate, |b.states|, |b.g.rules|);
            && c.Ok() && Codable(c, sorted, statenum, a)
            && ComputeAction(c, statenum, a) >= 0 && Decode(c, sorted, ComputeAction(c, statenum, a)) == MoveOf(a)
    ensures a.typ == SHIFT ==> statenum[a.x] < nxstate
  {
    hide Build.Ok, Recorded;
    CompressedShape(b, dflt, s, a);
    SizesOf(b);
    if a.typ == SHIFT { NotAutomaticEmitted(b.auto, sorted, statenum, nxstate, a.x); }
    DecodeComputed(Codes(nxstate, |b.states|, |b.g.rules|), sorted, statenum, a);
  }

  /** So two live actions of compressed rows have the same code if and only if they are the same move. */
  lemma EmittedCodesInjective(b: Build, dflt: seq<int>, sorted: seq<nat>, statenum: seq<nat>, nxstate: nat,
                              s: nat, a: Action, s': nat, a': Action)
    requires b.Ok() && Recorded(b.auto, dflt, b.best)
    requires Renumbered(|b.auto|, sorted, statenum) && Trimmed(b.auto, sorted, nxstate)
    requires s < |b.res| && LiveIn(b.res[s], a) && s' < |b.res| && LiveIn(b.res[s'], a')
    ensures var c := Codes(nxstate, |b.states|, |b.g.rules|);
            && Codable(c, sorted, statenum, a) && Codable(c, sorted, statenum, a')
            && (ComputeAction(c, statenum, a) == ComputeAction(c, statenum, a') <==> MoveOf(a) == MoveOf(a'))
  {
    hide Build.Ok, Recorded, Renumbered, Trimmed, Codable, Decode, ComputeAction;
    EmittedCodable(b, dflt, sorted, statenum, nxstate, s, a);
    EmittedCodable(b, dflt, sorted, statenum, nxstate, s', a');
    NoErrors(b, dflt, s, a);
    NoErrors(b, dflt, s', a');
    CodesInjective(Codes(nxstate, |b.states|, |b.g.rules|), sorted, statenum, a, a');
  }

  lemma NoErrors(b: Build, dflt: seq<int>, s: nat, a: Action)
    requires b.Ok() && Recorded(b.auto, dflt, b.best) && s < |b.res| && LiveIn(b.res[s], a)
    ensures a.typ != ERROR
  {
    hide Build.Ok, Recorded;
    CompressedShape(b, dflt, s, a);
  }
}
