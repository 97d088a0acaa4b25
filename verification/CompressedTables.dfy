/** `CompressTables` on all states, and why the compressed rows are sound. */
module CompressedTables {
  import opened Grammars
  import opened Items
  import opened Actions
  import opened Collections
  import opened MSort
  import opened Conflicts
  import opened FollowSets
  import opened Machines
  import opened Soundness
  import opened Compression
  import opened RowFacts

  // ---------------------------------------------------------------- automatic states

  lemma BestComplete(g: Grammar, states: seq<State>, fws: map<Config, set<nat>>, q: nat, row: seq<Action>, best: int)
    requires g.Valid() && g.StartOffRhs() && Canonical(g, states) && IsLalr(g, states, fws) && q < |states|
    requires ActionRow(g, states, fws, q, row) && IsBest(g, row, best) && best >= 0
    ensures Complete(g, states, q, best) && g.rules[best].lhs != g.start
  {
    var a :| a in row && Defaultable(g, a) && a.x == best;
    LiveFacts(g, states, fws, q, row, a);
  }

  /** The rule of an automatic state has a right-hand side: an empty one would leave a goto. */
  lemma AutomaticIsBlind(g: Grammar, states: seq<State>, fws: map<Config, set<nat>>, q: nat, row: seq<Action>,
                         best: int)
    requires g.Valid() && g.StartOffRhs() && Canonical(g, states) && IsLalr(g, states, fws) && q < |states|
    requires ActionRow(g, states, fws, q, row) && IsBest(g, row, best) && Automatic(row, best)
    ensures Blind(g, best) && Complete(g, states, q, best)
  {
    BestComplete(g, states, fws, q, row, best);
    if g.rules[best].rhs == [] {
      var x := g.rules[best].lhs;
      BegunRule(g, states, q, best);
      assert g.ValidRule(g.rules[best]);
      GotoLive(g, states, fws, q, row, x);
    }
  }

  /** A unit rule that reduces in the state behind x renames x, and its left-hand side has a goto. */
  lemma UnitBehind(g: Grammar, states: seq<State>, s: nat, x: nat, q: nat, r: nat)
    requires g.Valid() && g.StartOffRhs() && Canonical(g, states) && ShiftTo(g, states, s, x, q)
    requires Complete(g, states, q, r)
    requires |g.rules[r].rhs| == 1 && g.rules[r].lhs != g.start
    ensures g.rules[r].rhs == [x] && HasGoto(g, states, s, g.rules[r].lhs)
  {
    DottedInKernel(g, states, q, r, 1);
    var i :| i in ItemsOf(states[s]) && Shifts(g, i, x) && Item(r, 1) == Advance(i);
    assert i == Item(r, 0);
    BegunRule(g, states, s, r);
  }

  ghost predicate BestOk(g: Grammar, rows: seq<seq<Action>>, best: seq<int>, auto: seq<bool>) {
    && |rows| == |best| == |auto|
    && forall s | 0 <= s < |rows| :: IsBest(g, rows[s], best[s]) && (auto[s] <==> Automatic(rows[s], best[s]))
  }

  /** What the folded row holds on a nonterminal. */
  lemma FoldedUnit(g: Grammar, states: seq<State>, fws: map<Config, set<nat>>, rows: seq<seq<Action>>,
                   best: seq<int>, auto: seq<bool>, s: nat, w: Action)
    requires g.Valid() && g.StartOffRhs() && Canonical(g, states) && IsLalr(g, states, fws) && s < |states|
    requires ActionRows(g, states, fws, rows) && BestOk(g, rows, best, auto)
    requires LiveIn(rows[s], w) && UnitAction(g, Fold(w, auto, best))
    ensures var a := Fold(w, auto, best);
            UnitRule(g, a.x, a.sp, g.rules[a.x].lhs) && HasGoto(g, states, s, g.rules[a.x].lhs)
  {
    hide ActionRow, Canonical, IsLalr, IsBest, HasGoto, Complete, LiveIn;
    var a := Fold(w, auto, best);
    assert ActionRow(g, states, fws, s, rows[s]);
    LiveFacts(g, states, fws, s, rows[s], w);
    var q := w.x;
    assert ActionRow(g, states, fws, q, rows[q]);
    BestComplete(g, states, fws, q, rows[q], best[q]);
    UnitBehind(g, states, s, w.sp, q, a.x);
  }

  // ---------------------------------------------------------------- the three passes

  /** A row after the first pass. */
  ghost predicate Pass1(g: Grammar, row: seq<Action>, best: int, res: seq<Action>) {
    && IsBest(g, row, best)
    && Defaulted(g, row, best, res)
    && LiveOffTokens(g, res)
    && forall a | a in res :: a.sp <= g.NSymbol()
  }

  lemma Unfolded(g: Grammar, states: seq<State>, fws: map<Config, set<nat>>, s: nat, row: seq<Action>,
                 best: seq<int>, auto: seq<bool>, own: int, row1: seq<Action>, row2: seq<Action>, a: Action)
    returns (w: Action)
    requires s < |states| && ActionRow(g, states, fws, s, row)
    requires Pass1(g, row, own, row1) && FoldOf(row1, auto, best, row2)
    requires a in row2 && a.typ == SHIFTREDUCE
    ensures LiveIn(row, w) && a == Fold(w, auto, best)
  {
    var i :| 0 <= i < |row2| && row2[i] == a;
    w := row1[i];
    assert LiveIn(row1, w) <==> Kept(g, row, own, w);
  }

  lemma GotoKept(g: Grammar, states: seq<State>, fws: map<Config, set<nat>>, s: nat, row: seq<Action>,
                 best: seq<int>, auto: seq<bool>, own: int, row1: seq<Action>, row2: seq<Action>, y: nat)
    requires g.Valid() && g.StartOffRhs() && Canonical(g, states) && IsLalr(g, states, fws) && s < |states|
    requires ActionRow(g, states, fws, s, row) && Pass1(g, row, own, row1) && FoldOf(row1, auto, best, row2)
    requires HasGoto(g, states, s, y) && y >= g.nterminal
    ensures LiveOn(row2, y) != []
  {
    GotoLive(g, states, fws, s, row, y);
    var b := LiveOn(row, y)[0];
    hide ActionRow, Canonical, IsLalr;
    assert Kept(g, row, own, b) && LiveIn(row1, b);
    var j :| 0 <= j < |row1| && row1[j] == b;
    assert row2[j] in row2 && Live(row2[j]) && row2[j].sp == y;
  }

  lemma FoldedUnits(g: Grammar, states: seq<State>, fws: map<Config, set<nat>>, rows: seq<seq<Action>>,
                    best: seq<int>, auto: seq<bool>, s: nat, row1: seq<Action>, row2: seq<Action>, a: Action)
    requires g.Valid() && g.StartOffRhs() && Canonical(g, states) && IsLalr(g, states, fws) && s < |states|
    requires ActionRows(g, states, fws, rows) && BestOk(g, rows, best, auto)
    requires Pass1(g, rows[s], best[s], row1) && FoldOf(row1, auto, best, row2)
    requires a in row2 && UnitAction(g, a)
    ensures UnitRule(g, a.x, a.sp, g.rules[a.x].lhs) && LiveOn(row2, g.rules[a.x].lhs) != []
  {
    assert ActionRow(g, states, fws, s, rows[s]) && |rows| == |best|;
    hide ActionRow, Canonical, IsLalr, Pass1, FoldOf, BestOk, ActionRows;
    var w := Unfolded(g, states, fws, s, rows[s], best, auto, best[s], row1, row2, a);
    FoldedUnit(g, states, fws, rows, best, auto, s, w);
    assert g.ValidRule(g.rules[a.x]);
    GotoKept(g, states, fws, s, rows[s], best, auto, best[s], row1, row2, g.rules[a.x].lhs);
  }

  lemma FoldedUnitsOk(g: Grammar, states: seq<State>, fws: map<Config, set<nat>>, rows: seq<seq<Action>>,
                      best: seq<int>, auto: seq<bool>, s: nat, row1: seq<Action>, row2: seq<Action>)
    requires g.Valid() && g.StartOffRhs() && Canonical(g, states) && IsLalr(g, states, fws) && s < |states|
    requires ActionRows(g, states, fws, rows) && BestOk(g, rows, best, auto)
    requires Pass1(g, rows[s], best[s], row1) && FoldOf(row1, auto, best, row2)
    ensures UnitsOk(g, row2) && forall a | a in row2 :: a.sp <= g.NSymbol()
  {
    FoldedLookup(g, rows[s], best[s], auto, best, row1, row2);
    forall a | a in row2
      ensures a.sp <= g.NSymbol() && (a.sp >= g.nterminal ==> Live(a))
    {
      var i :| 0 <= i < |row2| && row2[i] == a;
      assert row1[i] in row1;
    }
    forall a | a in row2 && UnitAction(g, a)
      ensures UnitRule(g, a.x, a.sp, g.rules[a.x].lhs) && LiveOn(row2, g.rules[a.x].lhs) != []
    {
      FoldedUnits(g, states, fws, rows, best, auto, s, row1, row2, a);
    }
  }

  /** All rows fit the sorter. */
  ghost predicate SmallRows(rows: seq<seq<Action>>) {
    forall s | 0 <= s < |rows| :: |rows[s]| < Pow2(LISTSIZE)
  }

  /** The flags and defaults recorded with the states: a default only for an automatic state. */
  ghost predicate Recorded(auto: seq<bool>, dflt: seq<int>, best: seq<int>) {
    && |auto| == |dflt| == |best|
    && forall s | 0 <= s < |auto| :: dflt[s] == if auto[s] then best[s] else -1
  }

  lemma RecordedFold(auto: seq<bool>, dflt: seq<int>, best: seq<int>, a: Action)
    requires Recorded(auto, dflt, best) && forall s | 0 <= s < |auto| && auto[s] :: best[s] >= 0
    ensures Fold(a, auto, dflt) == Fold(a, auto, best)
  {
  }

  ghost predicate FirstPass(g: Grammar, rows: seq<seq<Action>>, best: seq<int>, ap: seq<seq<Action>>, auto: seq<bool>,
                            dflt: seq<int>) {
    && |rows| == |best| == |ap|
    && Recorded(auto, dflt, best) && BestOk(g, rows, best, auto)
    && forall s | 0 <= s < |ap| :: Pass1(g, rows[s], best[s], ap[s])
  }

  method MakeDefaults(g: Grammar, states: seq<State>, ghost fws: map<Config, set<nat>>,
                      ap: array<seq<Action>>, autoReduce: array<bool>, pDfltReduce: array<int>)
    returns (ghost best: seq<int>)
    requires g.Valid() && g.StartOffRhs() && Canonical(g, states)
    requires ActionRows(g, states, fws, ap[..]) && SmallRows(ap[..])
    requires autoReduce.Length == pDfltReduce.Length == ap.Length
    requires forall s | 0 <= s < ap.Length :: !autoReduce[s] && pDfltReduce[s] == -1
    modifies ap, autoReduce, pDfltReduce
    ensures FirstPass(g, old(ap[..]), best, ap[..], autoReduce[..], pDfltReduce[..])
  {
    hide *;
    ghost var rows := ap[..];
    RowsAt(g, states, fws, rows);
    best := [];
    for i := 0 to ap.Length
      invariant |best| == i
      invariant forall s | i <= s < ap.Length :: ap[s] == rows[s] && !autoReduce[s] && pDfltReduce[s] == -1
      invariant forall s | 0 <= s < i :: DoneFirst(g, rows[s], best[s], ap[s], autoReduce[s], pDfltReduce[s])
    {
      var row, auto, b := DefaultOf(g, states, fws, i, ap[i]);
      ap[i] := row;
      if auto {
        autoReduce[i] := true;
        pDfltReduce[i] := b;
      }
      best := best + [b];
      DoneOne(g, rows[i], b, row, auto, pDfltReduce[i]);
    }
    FirstPassDone(g, rows, best, ap[..], autoReduce[..], pDfltReduce[..]);
  }

  ghost predicate DoneFirst(g: Grammar, row: seq<Action>, best: int, res: seq<Action>, auto: bool, dflt: int) {
    Pass1(g, row, best, res) && (auto <==> Automatic(row, best)) && dflt == (if auto then best else -1)
  }

  lemma DoneOne(g: Grammar, row: seq<Action>, best: int, res: seq<Action>, auto: bool, dflt: int)
    requires Pass1(g, row, best, res) && (auto <==> Automatic(row, best)) && dflt == (if auto then best else -1)
    ensures DoneFirst(g, row, best, res, auto, dflt)
  {
  }

  lemma RowsAt(g: Grammar, states: seq<State>, fws: map<Config, set<nat>>, rows: seq<seq<Action>>)
    requires ActionRows(g, states, fws, rows) && SmallRows(rows)
    ensures |rows| == |states| && forall s | 0 <= s < |rows| ::
            ActionRow(g, states, fws, s, rows[s]) && |rows[s]| < Pow2(LISTSIZE)
  {
  }

  lemma FirstPassDone(g: Grammar, rows: seq<seq<Action>>, best: seq<int>, ap: seq<seq<Action>>, auto: seq<bool>,
                      dflt: seq<int>)
    requires |rows| == |best| == |ap| == |auto| == |dflt|
    requires forall s | 0 <= s < |ap| :: DoneFirst(g, rows[s], best[s], ap[s], auto[s], dflt[s])
    ensures FirstPass(g, rows, best, ap, auto, dflt)
  {
    hide Defaulted, IsBest, Automatic, LiveOffTokens;
  }

  method DefaultOf(g: Grammar, states: seq<State>, ghost fws: map<Config, set<nat>>, ghost s: nat, row: seq<Action>)
    returns (res: seq<Action>, auto: bool, best: int)
    requires g.Valid() && g.StartOffRhs() && Canonical(g, states) && s < |states|
    requires ActionRow(g, states, fws, s, row) && |row| < Pow2(LISTSIZE)
    ensures Pass1(g, row, best, res) && (auto <==> Automatic(row, best))
  {
    RowShape(g, states, fws, s, row);
    assert OneLive(row);
    hide ActionRow, Canonical;
    res, auto, best := MakeDefault(g, row);
  }

  // ---- second and third pass

  method FoldAll(g: Grammar, ap: array<seq<Action>>, autoReduce: array<bool>, pDfltReduce: array<int>)
    requires forall s, a | 0 <= s < ap.Length && a in ap[s] && a.typ == SHIFT ::
             a.x < autoReduce.Length && a.x < pDfltReduce.Length
    modifies ap
    ensures forall s | 0 <= s < ap.Length :: FoldOf(old(ap[s]), autoReduce[..], pDfltReduce[..], ap[s])
  {
    ghost var rows := ap[..];
    for i := 0 to ap.Length
      invariant forall s | i <= s < ap.Length :: ap[s] == rows[s]
      invariant forall s | 0 <= s < i :: FoldOf(rows[s], autoReduce[..], pDfltReduce[..], ap[s])
    {
      ap[i] := FoldShifts(ap[i], autoReduce, pDfltReduce);
    }
  }

  method ShortenAll(g: Grammar, ap: array<seq<Action>>)
    requires g.Valid() && NoUnitCycles(g)
    requires forall s | 0 <= s < ap.Length :: UnitsOk(g, ap[s]) && forall a | a in ap[s] :: a.sp <= g.NSymbol()
    modifies ap
    ensures forall s | 0 <= s < ap.Length :: Shortened(g, old(ap[s]), ap[s]) && NoDetours(g, ap[s])
  {
    hide UnitsOk, Shortened, NoDetours;
    ghost var rows := ap[..];
    for i := 0 to ap.Length
      invariant forall s | i <= s < ap.Length :: ap[s] == rows[s]
      invariant forall s | 0 <= s < i :: Shortened(g, rows[s], ap[s]) && NoDetours(g, ap[s])
    {
      ap[i] := Shorten(g, ap[i]);
    }
  }

  /** After the first pass every shift still goes to a state. */
  lemma ShiftsInRange(g: Grammar, states: seq<State>, fws: map<Config, set<nat>>, rows: seq<seq<Action>>,
                      best: seq<int>, ap: seq<seq<Action>>, auto: seq<bool>, dflt: seq<int>)
    requires g.Valid() && g.StartOffRhs() && Canonical(g, states)
    requires ActionRows(g, states, fws, rows) && FirstPass(g, rows, best, ap, auto, dflt)
    ensures forall s, a | 0 <= s < |ap| && a in ap[s] && a.typ == SHIFT :: a.x < |auto| && a.x < |dflt|
  {
    forall s, a | 0 <= s < |ap| && a in ap[s] && a.typ == SHIFT
      ensures a.x < |states|
    {
      RowShape(g, states, fws, s, rows[s]);
      assert Pass1(g, rows[s], best[s], ap[s]);
      assert LiveIn(ap[s], a) <==> Kept(g, rows[s], best[s], a);
    }
  }

  lemma FoldSame(row: seq<Action>, auto: seq<bool>, dflt: seq<int>, best: seq<int>, res: seq<Action>)
    requires Recorded(auto, dflt, best) && forall s | 0 <= s < |auto| && auto[s] :: best[s] >= 0
    requires FoldOf(row, auto, dflt, res)
    ensures FoldOf(row, auto, best, res)
  {
    forall i | 0 <= i < |row|
      ensures res[i] == Fold(row[i], auto, best)
    {
      RecordedFold(auto, dflt, best, row[i]);
    }
  }

  /** All three passes.  `best` is the default reduction of every state, automatic or not. */
  method CompressTables(g: Grammar, states: seq<State>, ghost fws: map<Config, set<nat>>,
                        ap: array<seq<Action>>, autoReduce: array<bool>, pDfltReduce: array<int>)
    returns (ghost best: seq<int>)
    requires g.Valid() && g.StartOffRhs() && NoUnitCycles(g) && Canonical(g, states) && IsLalr(g, states, fws)
    requires ActionRows(g, states, fws, ap[..]) && SmallRows(ap[..])
    requires autoReduce.Length == pDfltReduce.Length == ap.Length
    requires forall s | 0 <= s < ap.Length :: !autoReduce[s] && pDfltReduce[s] == -1
    modifies ap, autoReduce, pDfltReduce
    ensures Compressed(g, old(ap[..]), best, autoReduce[..], ap[..])
    ensures Recorded(autoReduce[..], pDfltReduce[..], best)
    ensures forall s | 0 <= s < ap.Length :: NoDetours(g, ap[s])
  {
    hide NoDetours, ActionRow, Canonical, IsLalr, Pass1, FoldOf, UnitsOk, Shortened, NoUnitCycles, BestOk;
    ghost var rows := ap[..];
    best := MakeDefaults(g, states, fws, ap, autoReduce, pDfltReduce);
    ghost var rows1 := ap[..];
    ShiftsInRange(g, states, fws, rows, best, rows1, autoReduce[..], pDfltReduce[..]);
    FoldAll(g, ap, autoReduce, pDfltReduce);
    ghost var rows2 := ap[..];
    SecondPassDone(g, states, fws, rows, best, autoReduce[..], pDfltReduce[..], rows1, rows2);
    ShortenAll(g, ap);
    ThirdPassDone(g, rows, best, autoReduce[..], pDfltReduce[..], rows1, rows2, ap[..]);
  }

  lemma SecondPassDone(g: Grammar, states: seq<State>, fws: map<Config, set<nat>>, rows: seq<seq<Action>>,
                       best: seq<int>, auto: seq<bool>, dflt: seq<int>, rows1: seq<seq<Action>>,
                       rows2: seq<seq<Action>>)
    requires g.Valid() && g.StartOffRhs() && Canonical(g, states) && IsLalr(g, states, fws)
    requires ActionRows(g, states, fws, rows) && FirstPass(g, rows, best, rows1, auto, dflt)
    requires |rows2| == |rows1| && forall s | 0 <= s < |rows1| :: FoldOf(rows1[s], auto, dflt, rows2[s])
    ensures forall s | 0 <= s < |rows2| :: UnitsOk(g, rows2[s]) && forall a | a in rows2[s] :: a.sp <= g.NSymbol()
    ensures forall s | 0 <= s < |rows2| :: FoldOf(rows1[s], auto, best, rows2[s])
  {
    assert forall s | 0 <= s < |auto| && auto[s] :: best[s] >= 0;
    forall s | 0 <= s < |rows2|
      ensures UnitsOk(g, rows2[s]) && FoldOf(rows1[s], auto, best, rows2[s]) && forall a | a in rows2[s] ::
              a.sp <= g.NSymbol()
    {
      hide ActionRow, Canonical, IsLalr, Pass1, FoldOf, UnitsOk, BestOk;
      FoldSame(rows1[s], auto, dflt, best, rows2[s]);
      FoldedUnitsOk(g, states, fws, rows, best, auto, s, rows1[s], rows2[s]);
    }
  }

  lemma ThirdPassDone(g: Grammar, rows: seq<seq<Action>>, best: seq<int>, auto: seq<bool>, dflt: seq<int>,
                      rows1: seq<seq<Action>>, rows2: seq<seq<Action>>, res: seq<seq<Action>>)
    requires FirstPass(g, rows, best, rows1, auto, dflt) && |rows1| == |rows2| == |res|
    requires forall s | 0 <= s < |rows2| :: FoldOf(rows1[s], auto, best, rows2[s]) && Shortened(g, rows2[s], res[s])
    ensures Compressed(g, rows, best, auto, res)
  {
    forall s | 0 <= s < |res|
      ensures CompressedRow(g, rows[s], best[s], auto, best, res[s])
    {
      hide FoldOf, Shortened, CompressedRow, Defaulted;
      assert Pass1(g, rows[s], best[s], rows1[s]);
      RowCompressed(g, rows[s], best[s], auto, best, rows1[s], rows2[s], res[s]);
    }
  }
}
