/** `CompressTables`: default reductions, SHIFTREDUCE actions, and short cuts through unit rules
    without code. */
module Compression {
  import opened Grammars
  import opened Items
  import opened Actions
  import opened ConfigLists
  import opened MSort
  import opened Conflicts
  import opened Machines

  // ---------------------------------------------------------------- the default reduction of a state

  predicate Reduces(a: Action, r: int) {
    a.typ == REDUCE && a.x == r
  }

  function CountReduces(row: seq<Action>, r: int): nat {
    if row == [] then 0 else (if Reduces(row[0], r) then 1 else 0) + CountReduces(row[1..], r)
  }

  /** The positions from k on with a reduction by rule r. */
  ghost function Reductions(row: seq<Action>, r: int, k: nat): set<nat> {
    set i: nat | k <= i < |row| && row[i].typ == REDUCE && row[i].x == r
  }

  lemma {:induction false} CountIsSize(row: seq<Action>, r: int, k: nat)
    requires k <= |row|
    ensures CountReduces(row[k..], r) == |Reductions(row, r, k)|
    decreases |row| - k
  {
    if k < |row| {
      CountIsSize(row, r, k + 1);
      assert row[k..][1..] == row[k + 1..];
      assert Reductions(row, r, k) == Reductions(row, r, k + 1) + if Reduces(row[k], r) then {k} else {};
    } else {
      assert Reductions(row, r, k) == {};
    }
  }

  /** A reduction that may become a default: not by a rule of the start symbol. */
  ghost predicate Defaultable(g: Grammar, a: Action) {
    a.typ == REDUCE && a.x < |g.rules| && g.rules[a.x].lhs != g.start
  }

  /** best is the most frequent defaultable rule of the row, the first one of these, or -1 if there is none. */
  ghost predicate IsBest(g: Grammar, row: seq<Action>, best: int) {
    && (forall a | a in row && Defaultable(g, a) :: best >= 0 && CountReduces(row, a.x) <= CountReduces(row, best))
    && (best >= 0 ==> exists a :: a in row && Defaultable(g, a) && a.x == best)
    && (best >= 0 ==> exists k: nat :: FirstWith(g, row, k, best))
    && -1 <= best
  }

  /** At k there is a reduction by that rule, and those by other rules before it are less frequent. */
  ghost predicate FirstWith(g: Grammar, row: seq<Action>, k: nat, best: int) {
    && k < |row| && Defaultable(g, row[k]) && row[k].x == best
    && forall j | 0 <= j < k && Defaultable(g, row[j]) && row[j].x != best ::
         CountReduces(row, row[j].x) < CountReduces(row, best)
  }

  lemma {:induction false} CountSuffix(row: seq<Action>, i: nat, r: int)
    requires i <= |row|
    ensures CountReduces(row[i..], r) <= CountReduces(row, r)
    ensures (forall k | 0 <= k < i :: !Reduces(row[k], r)) ==> CountReduces(row[i..], r) == CountReduces(row, r)
  {
    if i == 0 {
      assert row[i..] == row;
    } else {
      CountSuffix(row[1..], i - 1, r);
      assert row[1..][i - 1..] == row[i..];
    }
  }

  /** The count that the search makes at position i: that reduction and the later ones like it. */
  method CountFrom(row: seq<Action>, i: nat, rbest: int) returns (n: nat)
    requires i < |row| && row[i].typ == REDUCE && row[i].x != rbest
    ensures n == CountReduces(row[i..], row[i].x)
  {
    n := 1;
    for j := i + 1 to |row|
      invariant n + CountReduces(row[j..], row[i].x) == CountReduces(row[i..], row[i].x)
    {
      assert row[j..][1..] == row[j + 1..];
      if row[j].typ == REDUCE && row[j].x != rbest && row[j].x == row[i].x {
        n := n + 1;
      }
    }
  }

  ghost predicate BestSoFar(g: Grammar, row: seq<Action>, i: nat, nbest: nat, rbest: int)
    requires i <= |row|
  {
    && nbest == (if rbest < 0 then 0 else CountReduces(row, rbest))
    && -1 <= rbest
    && (rbest >= 0 ==> nbest >= 1 && exists k: nat :: k < i && FirstWith(g, row, k, rbest))
    && (forall k | 0 <= k < i && Defaultable(g, row[k]) :: CountReduces(row, row[k].x) <= nbest)
  }

  method FindBest(g: Grammar, row: seq<Action>) returns (rbest: int)
    requires forall a | a in row && a.typ == REDUCE :: a.x < |g.rules|
    ensures IsBest(g, row, rbest)
  {
    var nbest := 0;
    rbest := -1;
    for i := 0 to |row|
      invariant BestSoFar(g, row, i, nbest, rbest)
    {
      assert row[i] in row;
      if row[i].typ == REDUCE && g.rules[row[i].x].lhs != g.start && row[i].x != rbest {
        var n := CountFrom(row, i, rbest);
        CountSuffix(row, i, row[i].x);
        if n > nbest {
          nbest, rbest := n, row[i].x;
          assert FirstWith(g, row, i, rbest);
        }
      }
    }
    BestIsBest(g, row, nbest, rbest);
  }

  lemma BestIsBest(g: Grammar, row: seq<Action>, nbest: nat, rbest: int)
    requires BestSoFar(g, row, |row|, nbest, rbest)
    ensures IsBest(g, row, rbest)
  {
    if rbest >= 0 {
      var k: nat :| k < |row| && FirstWith(g, row, k, rbest);
      assert row[k] in row;
    }
    forall a | a in row && Defaultable(g, a)
      ensures rbest >= 0 && CountReduces(row, a.x) <= CountReduces(row, rbest)
    {
      var k :| 0 <= k < |row| && row[k] == a;
      CountPositive(row, k);
    }
  }

  lemma {:induction false} CountPositive(row: seq<Action>, k: nat)
    requires k < |row| && row[k].typ == REDUCE
    ensures CountReduces(row, row[k].x) > 0
  {
    if k > 0 { CountPositive(row[1..], k - 1); }
  }

  // ---------------------------------------------------------------- making it the default

  /** Row `made` is `row` with the reductions by rbest combined into the one at position k. */
  ghost predicate Combined(g: Grammar, row: seq<Action>, made: seq<Action>, rbest: nat, k: nat) {
    && |made| == |row| && k < |row|
    && Reduces(row[k], rbest)
    && (forall i | 0 <= i < k :: !Reduces(row[i], rbest))
    && (forall i | 0 <= i < |row| ::
          made[i] == if !Reduces(row[i], rbest) then row[i]
                     else if i == k then row[i].(sp := g.NSymbol()) else row[i].(typ := NOT_USED))
  }

  method CombineReduces(g: Grammar, row: seq<Action>, rbest: nat) returns (made: seq<Action>, ghost k: nat)
    requires exists a :: a in row && Reduces(a, rbest)
    ensures Combined(g, row, made, rbest, k)
  {
    made := row;
    var i := 0;
    ghost var h :| 0 <= h < |row| && Reduces(row[h], rbest);
    while !Reduces(made[i], rbest)
      invariant 0 <= i <= h && forall j | 0 <= j < i :: !Reduces(row[j], rbest)
      decreases h - i
    {
      i := i + 1;
    }
    k := i;
    made := made[i := made[i].(sp := g.NSymbol())];
    for j := i + 1 to |row|
      invariant |made| == |row|
      invariant forall m | 0 <= m < |row| ::
        made[m] == if !Reduces(row[m], rbest) || m >= j then (if m == k then row[m].(sp := g.NSymbol()) else row[m])
                   else if m == k then row[m].(sp := g.NSymbol()) else row[m].(typ := NOT_USED)
    {
      if Reduces(made[j], rbest) {
        made := made[j := made[j].(typ := NOT_USED)];
      }
    }
  }

  ghost predicate LiveIn(row: seq<Action>, a: Action) {
    a in row && Live(a)
  }

  ghost predicate LowSymbols(g: Grammar, row: seq<Action>) {
    forall a | a in row :: a.sp < g.NSymbol()
  }

  /** What may be done in the state once its default, if any, is made. */
  ghost predicate Kept(g: Grammar, row: seq<Action>, best: int, a: Action) {
    || (LiveIn(row, a) && !Reduces(a, best))
    || (best >= 0 && a == Action(g.NSymbol(), REDUCE, best))
  }

  ghost predicate Defaulted(g: Grammar, row: seq<Action>, best: int, res: seq<Action>) {
    OneLive(res) && forall a :: LiveIn(res, a) <==> Kept(g, row, best, a)
  }

  lemma CombinedIsDefaulted(g: Grammar, row: seq<Action>, made: seq<Action>, rbest: nat, k: nat)
    requires Combined(g, row, made, rbest, k) && OneLive(row) && LowSymbols(g, row)
    ensures Defaulted(g, row, rbest, made)
  {
    forall a
      ensures LiveIn(made, a) <==> Kept(g, row, rbest, a)
    {
      if LiveIn(made, a) {
        var i :| 0 <= i < |made| && made[i] == a;
        assert row[i] in row;
      }
      if Kept(g, row, rbest, a) {
        if a == Action(g.NSymbol(), REDUCE, rbest) {
          assert made[k] == a;
        } else {
          var i :| 0 <= i < |row| && row[i] == a;
          assert made[i] == a;
        }
      }
    }
    forall i, j | 0 <= i < j < |made| && made[i].sp == made[j].sp
      ensures !(Live(made[i]) && Live(made[j]))
    {
      assert row[i] in row && row[j] in row;
    }
  }

  ghost predicate LiveOffTokens(g: Grammar, row: seq<Action>) {
    forall a | a in row && a.sp >= g.nterminal :: Live(a)
  }

  ghost predicate ReducesOnTokens(g: Grammar, row: seq<Action>) {
    forall a | a in row && a.typ == REDUCE :: a.sp < g.nterminal
  }

  lemma CombinedSymbols(g: Grammar, row: seq<Action>, made: seq<Action>, rbest: nat, k: nat)
    requires Combined(g, row, made, rbest, k) && LowSymbols(g, row) && LiveOffTokens(g, row) && ReducesOnTokens(g, row)
    ensures LiveOffTokens(g, made) && forall a | a in made :: a.sp <= g.NSymbol()
  {
    forall a | a in made
      ensures a.sp <= g.NSymbol() && (a.sp >= g.nterminal ==> Live(a))
    {
      var i :| 0 <= i < |made| && made[i] == a;
      assert row[i] in row;
    }
  }

  /** Sorting changes neither. */
  lemma OneLivePermuted(s: seq<Action>, t: seq<Action>)
    requires multiset(s) == multiset(t) && OneLive(s)
    ensures OneLive(t) && forall a :: LiveIn(t, a) <==> LiveIn(s, a)
  {
    SameElements(s, t);
    SameElements(t, s);
    forall i, j | 0 <= i < j < |t| && t[i].sp == t[j].sp
      ensures !(Live(t[i]) && Live(t[j]))
    {
      if t[i] == t[j] {
        Twice(t, i, j);
        OnceOnly(s, t[i]);
      } else {
        assert t[i] in t && t[j] in t;
        var k :| 0 <= k < |s| && s[k] == t[i];
        var m :| 0 <= m < |s| && s[m] == t[j];
        assert k < m || m < k;
      }
    }
  }

  lemma OnceOnly(s: seq<Action>, a: Action)
    requires OneLive(s) && multiset(s)[a] > 1
    ensures !Live(a)
  {
    hide Live;
    var i :| 0 <= i < |s| && s[i] == a;
    var rest := s[..i] + s[i + 1..];
    MinusOne(s, i);
    assert a in rest;
    var j :| 0 <= j < |rest| && rest[j] == a;
    var j' := if j < i then j else j + 1;
    assert s[j'] == a && j' != i;
    assert i < j' || j' < i;
  }

  lemma MinusOne(s: seq<Action>, i: nat)
    requires i < |s|
    ensures multiset(s) == multiset(s[..i] + s[i + 1..]) + multiset{s[i]}
  {
    assert s == s[..i] + [s[i]] + s[i + 1..];
  }

  /** The state does nothing but reduce by its default. */
  ghost predicate Automatic(row: seq<Action>, best: int) {
    best >= 0 && forall a | a in row && (a.typ == SHIFT || a.typ == REDUCE) :: Reduces(a, best)
  }

  method IsAutomatic(row: seq<Action>, rbest: nat) returns (auto: bool)
    ensures auto <==> Automatic(row, rbest)
  {
    for i := 0 to |row|
      invariant forall j | 0 <= j < i && (row[j].typ == SHIFT || row[j].typ == REDUCE) :: Reduces(row[j], rbest)
    {
      if row[i].typ == SHIFT || (row[i].typ == REDUCE && row[i].x != rbest) {
        assert row[i] in row;
        return false;
      }
    }
    return true;
  }

  lemma AutomaticKept(g: Grammar, row: seq<Action>, best: int, res: seq<Action>)
    requires best >= 0 && Defaulted(g, row, best, res)
    ensures Automatic(res, best) <==> Automatic(row, best)
  {
    forall a: Action | a.typ == SHIFT || a.typ == REDUCE
      ensures a in res <==> Kept(g, row, best, a)
    {
      assert LiveIn(res, a) <==> Kept(g, row, best, a);
    }
  }

  /** The first pass, for one state. */
  method MakeDefault(g: Grammar, row: seq<Action>) returns (res: seq<Action>, auto: bool, best: int)
    requires OneLive(row) && LowSymbols(g, row) && |row| < Pow2(LISTSIZE)
    requires forall a | a in row && a.typ == REDUCE :: a.x < |g.rules|
    requires LiveOffTokens(g, row) && ReducesOnTokens(g, row)
    ensures IsBest(g, row, best) && Defaulted(g, row, best, res) && |res| == |row|
    ensures auto <==> Automatic(row, best)
    ensures LiveOffTokens(g, res) && forall a | a in res :: a.sp <= g.NSymbol()
  {
    best := FindBest(g, row);
    if best < 0 {
      return row, false, best;
    }
    var made; ghost var k;
    made, k := CombineReduces(g, row, best);
    CombinedIsDefaulted(g, row, made, best, k);
    CombinedSymbols(g, row, made, best, k);
    res := SortActions(g, made);
    SameElements(res, made);
    OneLivePermuted(made, res);
    SameLength(made, res);
    auto := IsAutomatic(res, best);
    AutomaticKept(g, row, best, res);
  }

  // ---------------------------------------------------------------- shifts to automatic states

  /** The second pass turns a shift to a state that only reduces into a SHIFTREDUCE. */
  function Fold(a: Action, auto: seq<bool>, best: seq<int>): Action {
    if a.typ == SHIFT && a.x < |auto| && a.x < |best| && auto[a.x] && best[a.x] >= 0
    then Action(a.sp, SHIFTREDUCE, best[a.x]) else a
  }

  method FoldShifts(row: seq<Action>, autoReduce: array<bool>, pDfltReduce: array<int>) returns (res: seq<Action>)
    requires forall a | a in row && a.typ == SHIFT :: a.x < autoReduce.Length && a.x < pDfltReduce.Length
    ensures |res| == |row| && forall i | 0 <= i < |row| :: res[i] == Fold(row[i], autoReduce[..], pDfltReduce[..])
  {
    res := row;
    for i := 0 to |row|
      invariant |res| == |row|
      invariant forall j | 0 <= j < |row| ::
                res[j] == if j < i then Fold(row[j], autoReduce[..], pDfltReduce[..]) else row[j]
    {
      if res[i].typ == SHIFT {
        assert row[i] in row;
        var next := res[i].x;
        if autoReduce[next] && pDfltReduce[next] >= 0 {
          res := res[i := Action(res[i].sp, SHIFTREDUCE, pDfltReduce[next])];
        }
      }
    }
  }

  // ---------------------------------------------------------------- unit rules without code

  /** A SHIFTREDUCE on a nonterminal that would only rename it. */
  predicate UnitAction(g: Grammar, a: Action) {
    && a.typ == SHIFTREDUCE
    && a.x < |g.rules| && g.rules[a.x].noCode && |g.rules[a.x].rhs| == 1
    && a.sp >= g.nterminal
  }

  ghost predicate NoUnitCycles(g: Grammar) {
    forall p | UnitPath(g, p) && |p| > 1 :: p[0] != p[|p| - 1]
  }

  /** In this row, x is renamed to y. */
  ghost predicate Renames(g: Grammar, row: seq<Action>, x: nat, y: nat) {
    var r := LiveOn(row, x);
    r != [] && UnitAction(g, r[0]) && g.rules[r[0].x].lhs == y
  }

  /** Following the renamings along p leads to the action a, given for p[0]. */
  ghost predicate Climb(g: Grammar, row: seq<Action>, p: seq<nat>, a: Action) {
    && p != []
    && (forall i | 0 < i < |p| :: Renames(g, row, p[i - 1], p[i]))
    && LiveOn(row, p[|p| - 1]) != []
    && a == LiveOn(row, p[|p| - 1])[0].(sp := p[0])
  }

  ghost predicate Climbs(g: Grammar, row: seq<Action>, x: nat, a: Action) {
    exists p :: p != [] && p[0] == x && Climb(g, row, p, a)
  }

  /** What the rows of a canonical collection have by construction. */
  ghost predicate UnitsOk(g: Grammar, row: seq<Action>) {
    && OneLive(row)
    && (forall a | a in row && a.sp >= g.nterminal :: Live(a))
    && (forall a | a in row && UnitAction(g, a) ::
          UnitRule(g, a.x, a.sp, g.rules[a.x].lhs) && LiveOn(row, g.rules[a.x].lhs) != [])
  }

  lemma ClimbIsUnitPath(g: Grammar, row: seq<Action>, p: seq<nat>, a: Action)
    requires UnitsOk(g, row) && Climb(g, row, p, a)
    ensures UnitPath(g, p)
  {
    forall i | 0 < i < |p|
      ensures UnitStep(g, p[i - 1], p[i])
    {
      assert Renames(g, row, p[i - 1], p[i]);
      var b := LiveOn(row, p[i - 1])[0];
      assert UnitRule(g, b.x, b.sp, g.rules[b.x].lhs);
    }
  }

  lemma ClimbJoin(g: Grammar, row: seq<Action>, p: seq<nat>, a: Action, p': seq<nat>, a': Action)
    requires Climb(g, row, p, a) && Climb(g, row, p', a') && Renames(g, row, p[|p| - 1], p'[0])
    ensures Climb(g, row, p + p', a'.(sp := p[0]))
  {
    var q := p + p';
    forall i | 0 < i < |q|
      ensures Renames(g, row, q[i - 1], q[i])
    {
      if i > |p| { assert Renames(g, row, p'[i - |p| - 1], p'[i - |p|]); }
    }
  }

  lemma UnitPathDistinct(g: Grammar, p: seq<nat>)
    requires NoUnitCycles(g) && UnitPath(g, p)
    ensures Distinct(p)
  {
    forall i, j | 0 <= i < j < |p|
      ensures p[i] != p[j]
    {
      var q := p[i..j + 1];
      forall k | 0 < k < |q|
        ensures UnitStep(g, q[k - 1], q[k])
      {
        assert UnitStep(g, p[i + k - 1], p[i + k]);
      }
      assert UnitPath(g, q);
    }
  }

  /** So there are no more renamings than symbols. */
  lemma UnitPathShort(g: Grammar, p: seq<nat>)
    requires g.Valid() && NoUnitCycles(g) && UnitPath(g, p) && p[0] < g.NSymbol()
    ensures |p| <= g.NSymbol()
  {
    UnitPathDistinct(g, p);
    var all := UpTo(g.NSymbol());
    forall i | 0 <= i < |p|
      ensures p[i] in all
    {
      if i > 0 {
        assert UnitStep(g, p[i - 1], p[i]);
        var r: nat :| UnitRule(g, r, p[i - 1], p[i]);
        assert g.ValidRule(g.rules[r]);
      }
    }
    DistinctBound(p, all);
  }

  /** Position i of the row, possibly some renamings later. */
  ghost predicate Along(g: Grammar, row: seq<Action>, res: seq<Action>, i: nat)
    requires i < |row| == |res|
  {
    && res[i].sp == row[i].sp
    && (if Live(row[i]) then Live(res[i]) && Climbs(g, row, row[i].sp, res[i]) else res[i] == row[i])
  }

  /** The third pass, for one state: no action renames any more. */
  ghost predicate Shortened(g: Grammar, row: seq<Action>, res: seq<Action>) {
    && |res| == |row|
    && forall i | 0 <= i < |row| :: Along(g, row, res, i) && !UnitAction(g, res[i])
  }

  /** No reduction by a rule without code and with one symbol on its right-hand side is left behind the
      shift of a nonterminal. */
  ghost predicate NoDetours(g: Grammar, row: seq<Action>) {
    forall a | a in row && a.typ == SHIFTREDUCE && a.x < |g.rules| && g.rules[a.x].noCode && |g.rules[a.x].rhs| == 1 ::
      a.sp < g.nterminal
  }

  lemma AlongAtFirst(g: Grammar, row: seq<Action>, i: nat)
    requires OneLive(row) && i < |row|
    ensures Along(g, row, row, i)
  {
    if Live(row[i]) {
      LiveOnUnique(row, row[i]);
      assert Climb(g, row, [row[i].sp], row[i]);
    }
  }

  /** One renaming at position k, whose action so far is the one along p: the action for the new
      symbol is elsewhere in the row. */
  method FindAction(g: Grammar, ghost row: seq<Action>, cur: seq<Action>, k: nat, ghost p: seq<nat>) returns (j: nat)
    requires g.Valid() && NoUnitCycles(g) && UnitsOk(g, row) && |cur| == |row| && k < |row|
    requires AllAlong(g, row, cur) && OnPath(g, row, cur, k, p) && UnitAction(g, cur[k])
    ensures j < |row| && j != k && cur[j].sp == g.rules[cur[k].x].lhs
    ensures Renames(g, row, p[|p| - 1], cur[j].sp) && Live(row[j]) && Live(row[k])
  {
    hide Climb, Renames;
    assert Along(g, row, cur, k);
    ghost var y := g.rules[cur[k].x].lhs;
    ghost var j0 := LhsPresent(g, row, cur, k, p);
    j := 0;
    while j == k || cur[j].sp != g.rules[cur[k].x].lhs
      invariant 0 <= j <= j0
      decreases j0 - j
    {
      j := j + 1;
    }
    assert row[j] in row && Along(g, row, cur, j);
  }

  lemma LhsPresent(g: Grammar, row: seq<Action>, cur: seq<Action>, k: nat, p: seq<nat>) returns (j: nat)
    requires g.Valid() && NoUnitCycles(g) && UnitsOk(g, row) && |cur| == |row| && k < |row|
    requires AllAlong(g, row, cur) && OnPath(g, row, cur, k, p) && UnitAction(g, cur[k])
    ensures j < |row| && j != k && cur[j].sp == g.rules[cur[k].x].lhs
    ensures Renames(g, row, p[|p| - 1], g.rules[cur[k].x].lhs)
    ensures g.rules[cur[k].x].lhs >= g.nterminal
  {
    assert Along(g, row, cur, k);
    var y := g.rules[cur[k].x].lhs;
    var b := LiveOn(row, p[|p| - 1])[0];
    ClimbIsUnitPath(g, row, p, cur[k]);
    if |p| > 1 {
      assert Renames(g, row, p[|p| - 2], p[|p| - 1]);
      assert g.ValidRule(g.rules[LiveOn(row, p[|p| - 2])[0].x]);
    }
    assert UnitAction(g, b) && UnitRule(g, b.x, b.sp, y);
    assert UnitStep(g, p[|p| - 1], y);
    assert UnitPath(g, p + [y]);
    assert g.ValidRule(g.rules[cur[k].x]);
    j :| 0 <= j < |row| && row[j] == LiveOn(row, y)[0];
    assert Along(g, row, cur, j);
  }

  ghost predicate AllAlong(g: Grammar, row: seq<Action>, res: seq<Action>) {
    |res| == |row| && forall i | 0 <= i < |row| :: Along(g, row, res, i)
  }

  /** The action at k is the one along p. */
  ghost predicate OnPath(g: Grammar, row: seq<Action>, cur: seq<Action>, k: nat, p: seq<nat>)
    requires k < |row| == |cur|
  {
    p != [] && p[0] == row[k].sp && (Live(row[k]) ==> Climb(g, row, p, cur[k]))
  }

  lemma SomePath(g: Grammar, row: seq<Action>, cur: seq<Action>, k: nat) returns (p: seq<nat>)
    requires AllAlong(g, row, cur) && k < |row|
    ensures OnPath(g, row, cur, k, p)
  {
    assert Along(g, row, cur, k);
    p := [row[k].sp];
    if Live(row[k]) {
      p :| p != [] && p[0] == row[k].sp && Climb(g, row, p, cur[k]);
    }
  }

  /** Replacing the action at k by that of the symbol it is renamed to. */
  lemma RenamedOnce(g: Grammar, row: seq<Action>, cur: seq<Action>, k: nat, j: nat, p: seq<nat>) returns (p': seq<nat>)
    requires AllAlong(g, row, cur) && k < |row| && j < |row| && Live(row[k]) && Live(row[j])
    requires OnPath(g, row, cur, k, p) && Renames(g, row, p[|p| - 1], cur[j].sp)
    ensures var next := cur[k := Action(cur[k].sp, cur[j].typ, cur[j].x)];
            AllAlong(g, row, next) && OnPath(g, row, next, k, p') && |p'| > |p|
  {
    var q := SomePath(g, row, cur, j);
    assert Along(g, row, cur, j) && Along(g, row, cur, k);
    ClimbJoin(g, row, p, cur[k], q, cur[j]);
    p' := p + q;
    var next := cur[k := Action(cur[k].sp, cur[j].typ, cur[j].x)];
    assert Climb(g, row, p', next[k]);
    forall i | 0 <= i < |row|
      ensures Along(g, row, next, i)
    {
      assert Along(g, row, cur, i);
    }
  }

  lemma NotYetAll(g: Grammar, row: seq<Action>, p: seq<nat>, a: Action)
    requires g.Valid() && NoUnitCycles(g) && UnitsOk(g, row) && Climb(g, row, p, a)
    requires p[0] <= g.NSymbol()
    ensures |p| <= g.NSymbol()
  {
    ClimbIsUnitPath(g, row, p, a);
    if |p| > 1 {
      assert UnitStep(g, p[0], p[1]);
      UnitPathShort(g, p);
    }
  }

  /** Renaming the action at position k until it does not rename. */
  method Rename(g: Grammar, ghost row: seq<Action>, was: seq<Action>, k: nat) returns (cur: seq<Action>)
    requires g.Valid() && NoUnitCycles(g) && UnitsOk(g, row) && k < |row| && row[k].sp <= g.NSymbol()
    requires AllAlong(g, row, was)
    ensures AllAlong(g, row, cur)
    ensures !UnitAction(g, cur[k]) && forall i | 0 <= i < |row| && i != k :: cur[i] == was[i]
  {
    hide UnitsOk, Climb, Renames, NoUnitCycles;
    cur := was;
    ghost var p := SomePath(g, row, was, k);
    while UnitAction(g, cur[k])
      invariant AllAlong(g, row, cur)
      invariant forall i | 0 <= i < |row| && i != k :: cur[i] == was[i]
      invariant OnPath(g, row, cur, k, p)
      decreases g.NSymbol() + 1 - |p|
    {
      assert Along(g, row, cur, k);
      NotYetAll(g, row, p, cur[k]);
      var j := FindAction(g, row, cur, k, p);
      p := RenamedOnce(g, row, cur, k, j, p);
      cur := cur[k := Action(cur[k].sp, cur[j].typ, cur[j].x)];
    }
  }

  method Shorten(g: Grammar, row: seq<Action>) returns (res: seq<Action>)
    requires g.Valid() && NoUnitCycles(g) && UnitsOk(g, row) && forall a | a in row :: a.sp <= g.NSymbol()
    ensures Shortened(g, row, res) && NoDetours(g, res)
  {
    res := row;
    forall i | 0 <= i < |row|
      ensures Along(g, row, row, i)
    {
      AlongAtFirst(g, row, i);
    }
    for k := 0 to |row|
      invariant AllAlong(g, row, res)
      invariant forall i | 0 <= i < k :: !UnitAction(g, res[i])
    {
      assert row[k] in row;
      res := Rename(g, row, res, k);
    }
  }

  // ---------------------------------------------------------------- what compression means

  /** The live actions of a state after its default is made and its shifts are folded. */
  function FoldedLive(row: seq<Action>, own: int, auto: seq<bool>, best: seq<int>): seq<Action> {
    if row == [] then []
    else
      var rest := FoldedLive(row[1..], own, auto, best);
      (if Live(row[0]) && !Reduces(row[0], own) then [Fold(row[0], auto, best)] else []) + rest
  }

  function Folded(g: Grammar, row: seq<Action>, own: int, auto: seq<bool>, best: seq<int>): seq<Action> {
    FoldedLive(row, own, auto, best) + if own >= 0 then [Action(g.NSymbol(), REDUCE, own)] else []
  }

  /** The compressed row: on every symbol the folded row's action, followed through the unit rules
      without code. */
  ghost predicate CompressedRow(g: Grammar, row: seq<Action>, own: int, auto: seq<bool>, best: seq<int>,
                                res: seq<Action>) {
    var mid := Folded(g, row, own, auto, best);
    && OneLive(res)
    && (forall x: nat :: LiveOn(res, x) == [] <==> LiveOn(mid, x) == [])
    && (forall x: nat | LiveOn(res, x) != [] ::
        !UnitAction(g, LiveOn(res, x)[0]) && Climbs(g, mid, x, LiveOn(res, x)[0]))
  }

  ghost predicate Compressed(g: Grammar, rows: seq<seq<Action>>, best: seq<int>, auto: seq<bool>,
                             res: seq<seq<Action>>) {
    && |rows| == |best| == |auto| == |res|
    && forall s | 0 <= s < |rows| ::
         && IsBest(g, rows[s], best[s])
         && (auto[s] <==> Automatic(rows[s], best[s]))
         && CompressedRow(g, rows[s], best[s], auto, best, res[s])
  }

  lemma {:induction false} InFoldedLive(row: seq<Action>, own: int, auto: seq<bool>, best: seq<int>, a: Action)
    ensures a in FoldedLive(row, own, auto, best) <==> exists w ::
            LiveIn(row, w) && !Reduces(w, own) && a == Fold(w, auto, best)
  {
    if row != [] {
      InFoldedLive(row[1..], own, auto, best, a);
      assert row == [row[0]] + row[1..];
      if w :| LiveIn(row, w) && !Reduces(w, own) && a == Fold(w, auto, best) {
        assert w == row[0] || LiveIn(row[1..], w);
      }
      if w :| LiveIn(row[1..], w) && !Reduces(w, own) && a == Fold(w, auto, best) {
        assert LiveIn(row, w);
      }
      if Live(row[0]) { assert LiveIn(row, row[0]); }
    }
  }

  lemma InFolded(g: Grammar, row: seq<Action>, own: int, auto: seq<bool>, best: seq<int>, a: Action)
    ensures a in Folded(g, row, own, auto, best) <==> exists w :: Kept(g, row, own, w) && a == Fold(w, auto, best)
  {
    InFoldedLive(row, own, auto, best, a);
    if own >= 0 {
      var d := Action(g.NSymbol(), REDUCE, own);
      assert Kept(g, row, own, d) && Fold(d, auto, best) == d;
    }
    if w :| LiveIn(row, w) && !Reduces(w, own) && a == Fold(w, auto, best) {
      assert Kept(g, row, own, w);
    }
  }

  /** A list whose live actions on x are all the same. */
  lemma {:induction false} LiveOnOnly(row: seq<Action>, x: nat, a: Action)
    requires LiveIn(row, a) && a.sp == x && forall b | LiveIn(row, b) && b.sp == x :: b == a
    ensures LiveOn(row, x) == [a]
  {
    var r := LiveOn(row, x);
    if r != [] { assert LiveIn(row, r[0]); }
  }

  /** Lists with the same live actions look the same. */
  lemma SameLookup(s: seq<Action>, t: seq<Action>, x: nat)
    requires OneLive(s) && forall a :: LiveIn(s, a) <==> LiveIn(t, a)
    ensures LiveOn(s, x) == LiveOn(t, x)
  {
    var r := LiveOn(s, x);
    if r != [] {
      var a := r[0];
      assert LiveIn(s, a);
      forall b | LiveIn(t, b) && b.sp == x
        ensures b == a
      {
        assert LiveIn(s, b);
        LiveOnUnique(s, b);
      }
      LiveOnOnly(t, x, a);
    } else {
      forall b | b in t
        ensures !(Live(b) && b.sp == x)
      {
        assert LiveIn(t, b) <==> LiveIn(s, b);
      }
      NoneOn(t, x);
    }
  }

  lemma {:induction false} NoneOn(row: seq<Action>, x: nat)
    requires forall b | b in row :: !(Live(b) && b.sp == x)
    ensures LiveOn(row, x) == []
  {
    if row != [] { NoneOn(row[1..], x); }
  }

  ghost predicate FoldOf(row: seq<Action>, auto: seq<bool>, best: seq<int>, res: seq<Action>) {
    |res| == |row| && forall i | 0 <= i < |row| :: res[i] == Fold(row[i], auto, best)
  }

  lemma FoldedLookup(g: Grammar, row: seq<Action>, own: int, auto: seq<bool>, best: seq<int>, row1: seq<Action>,
                     row2: seq<Action>)
    requires Defaulted(g, row, own, row1) && FoldOf(row1, auto, best, row2)
    ensures OneLive(row2)
    ensures forall x: nat :: LiveOn(row2, x) == LiveOn(Folded(g, row, own, auto, best), x)
  {
    var mid := Folded(g, row, own, auto, best);
    forall a
      ensures LiveIn(row2, a) <==> LiveIn(mid, a)
    {
      InFolded(g, row, own, auto, best, a);
      if LiveIn(row2, a) {
        var i :| 0 <= i < |row2| && row2[i] == a;
        assert LiveIn(row1, row1[i]);
      }
      if w :| Kept(g, row, own, w) && a == Fold(w, auto, best) {
        assert LiveIn(row1, w);
        var i :| 0 <= i < |row1| && row1[i] == w;
        assert row2[i] == a;
      }
    }
    forall x: nat
      ensures LiveOn(row2, x) == LiveOn(mid, x)
    {
      SameLookup(row2, mid, x);
    }
  }

  lemma SameClimb(g: Grammar, s: seq<Action>, t: seq<Action>, x: nat, a: Action)
    requires (forall y: nat :: LiveOn(s, y) == LiveOn(t, y)) && Climbs(g, s, x, a)
    ensures Climbs(g, t, x, a)
  {
    var p :| p != [] && p[0] == x && Climb(g, s, p, a);
    forall i | 0 < i < |p|
      ensures Renames(g, t, p[i - 1], p[i])
    {
      assert Renames(g, s, p[i - 1], p[i]);
    }
    assert Climb(g, t, p, a);
  }

  lemma ShortenedLookup(g: Grammar, row: seq<Action>, res: seq<Action>, x: nat)
    requires OneLive(row) && Shortened(g, row, res)
    ensures LiveOn(res, x) == [] <==> LiveOn(row, x) == []
    ensures LiveOn(res, x) != [] ==> !UnitAction(g, LiveOn(res, x)[0]) && Climbs(g, row, x, LiveOn(res, x)[0])
  {
    if LiveOn(row, x) != [] {
      var i :| 0 <= i < |row| && row[i] == LiveOn(row, x)[0];
      assert Along(g, row, res, i) && res[i] in res;
    }
    if LiveOn(res, x) != [] {
      var i :| 0 <= i < |res| && res[i] == LiveOn(res, x)[0];
      assert Along(g, row, res, i) && row[i] in row;
    }
  }

  /** The three passes over one row. */
  lemma RowCompressed(g: Grammar, row: seq<Action>, own: int, auto: seq<bool>, best: seq<int>,
                      row1: seq<Action>, row2: seq<Action>, res: seq<Action>)
    requires Defaulted(g, row, own, row1) && FoldOf(row1, auto, best, row2) && Shortened(g, row2, res)
    ensures CompressedRow(g, row, own, auto, best, res)
  {
    FoldedLookup(g, row, own, auto, best, row1, row2);
    forall i, j | 0 <= i < j < |res| && res[i].sp == res[j].sp
      ensures !(Live(res[i]) && Live(res[j]))
    {
      assert Along(g, row2, res, i) && Along(g, row2, res, j);
    }
    forall x: nat
      ensures LiveOn(res, x) == [] <==> LiveOn(row2, x) == []
      ensures LiveOn(res, x) != [] ==>
                !UnitAction(g, LiveOn(res, x)[0]) && Climbs(g, Folded(g, row, own, auto, best), x, LiveOn(res, x)[0])
    {
      ShortenedLookup(g, row2, res, x);
      if LiveOn(res, x) != [] {
        SameClimb(g, row2, Folded(g, row, own, auto, best), x, LiveOn(res, x)[0]);
      }
    }
  }
}
