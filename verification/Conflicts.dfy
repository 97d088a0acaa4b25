/** `FindActions`: the reduce and accept actions of every state, and `resolve_conflict`. */
module Conflicts {
  import opened Grammars
  import opened Items
  import opened Actions
  import opened Collections
  import opened ConfigLists
  import opened MSort

  // ---------------------------------------------------------------- action types

  /** What the action was before conflicts were resolved. */
  function Origin(t: ActionType): ActionType {
    match t
    case SSCONFLICT => SHIFT
    case SH_RESOLVED => SHIFT
    case SRCONFLICT => REDUCE
    case RRCONFLICT => REDUCE
    case RD_RESOLVED => REDUCE
    case _ => t
  }

  /** An action the parser can take. */
  predicate Live(a: Action) {
    a.typ in {SHIFT, REDUCE, ACCEPT, ERROR, SHIFTREDUCE}
  }

  predicate Conflict(a: Action) {
    a.typ in {SSCONFLICT, SRCONFLICT, RRCONFLICT}
  }

  /** No tie of precedences is broken by %nonassoc. */
  ghost predicate NoNonassoc(g: Grammar) {
    forall x | 0 <= x < |g.symbols| && g.symbols[x].prec >= 0 ::
      g.symbols[x].assoc == LEFT || g.symbols[x].assoc == RIGHT
  }

  // ---------------------------------------------------------------- one conflict

  function Prec(g: Grammar, sym: int): int {
    if 0 <= sym < |g.symbols| then g.symbols[sym].prec else -1
  }

  function Precsym(g: Grammar, rule: nat): int {
    if rule < |g.rules| then g.rules[rule].precsym else -1
  }

  /** `resolve_conflict` on two actions with the same lookahead: their new types and the number
      of errors.  A rule or symbol without precedence counts as precedence -1. */
  function ResolveConflict(g: Grammar, apx: Action, apy: Action): (r: (ActionType, ActionType, nat)) {
    if apx.typ == SHIFT && apy.typ == SHIFT then
      (apx.typ, SSCONFLICT, 1)
    else if apx.typ == SHIFT && apy.typ == REDUCE then
      var spx, spy := Prec(g, apx.sp), Prec(g, Precsym(g, apy.x));
      if spx < 0 || spy < 0 then (apx.typ, SRCONFLICT, 1)
      else if spx > spy then (apx.typ, RD_RESOLVED, 0)
      else if spx < spy then (SH_RESOLVED, apy.typ, 0)
      else if g.symbols[apx.sp].assoc == RIGHT then (apx.typ, RD_RESOLVED, 0)
      else if g.symbols[apx.sp].assoc == LEFT then (SH_RESOLVED, apy.typ, 0)
      else (ERROR, apy.typ, 0)
    else if apx.typ == REDUCE && apy.typ == REDUCE then
      var spx, spy := Prec(g, Precsym(g, apx.x)), Prec(g, Precsym(g, apy.x));
      if spx < 0 || spy < 0 || spx == spy then (apx.typ, RRCONFLICT, 1)
      else if spx > spy then (apx.typ, RD_RESOLVED, 0)
      else (RD_RESOLVED, apy.typ, 0)
    else
      (apx.typ, apy.typ, 0)
  }

  /** A shift and a reduction of equal precedence, and no associativity to break the tie. */
  predicate Tie(g: Grammar, apx: Action, apy: Action) {
    && apx.typ == SHIFT && apy.typ == REDUCE
    && 0 <= Prec(g, apx.sp) == Prec(g, Precsym(g, apy.x))
    && g.symbols[apx.sp].assoc !in {LEFT, RIGHT}
  }

  /** Of two live actions exactly one survives unless %nonassoc has to break a tie, and the error count says
      whether the other was marked as a conflict. */
  lemma OneSurvives(g: Grammar, apx: Action, apy: Action)
    requires apx.typ in {SHIFT, REDUCE} && apy.typ in {SHIFT, REDUCE} && !(apx.typ == REDUCE && apy.typ == SHIFT)
    ensures var r := ResolveConflict(g, apx, apy);
            var x, y := apx.(typ := r.0), apy.(typ := r.1);
            && ((Live(x) <==> !Live(y)) <==> !Tie(g, apx, apy))
            && (Tie(g, apx, apy) ==> x == apx.(typ := ERROR) && y == apy)
            && !Conflict(x) && r.2 == (if Conflict(y) then 1 else 0)
    ensures !Tie(g, apx, apy) ==>
              var r := ResolveConflict(g, apx, apy);
              var x, y := apx.(typ := r.0), apy.(typ := r.1);
              && Origin(x.typ) == apx.typ && Origin(y.typ) == apy.typ
              && (Live(x) ==> x == apx) && (Live(y) ==> y == apy)
  {
  }

  /** The last assertion of `resolve_conflict`: what is neither a conflict to be settled nor settled already is
      not on the list. */
  predicate PairOk(apx: Action, apy: Action) {
    || apx.typ == apy.typ == SHIFT || (apx.typ in {SHIFT, REDUCE} && apy.typ == REDUCE)
    || IsSettled(apx) || IsSettled(apy)
  }

  predicate IsSettled(a: Action) {
    a.typ in {SH_RESOLVED, RD_RESOLVED, SSCONFLICT, SRCONFLICT, RRCONFLICT}
  }

  // ---------------------------------------------------------------- all pairs of one state

  /** A sorted action list: lookaheads in groups, the shift of a group before its reduces. */
  ghost predicate Grouped(list: seq<Action>) {
    && (forall i, j | 0 <= i < j < |list| :: list[i].sp <= list[j].sp)
    && (forall i, j | 0 <= i < j < |list| && list[i].sp == list[j].sp ::
          list[i].typ in {SHIFT, REDUCE} && list[j].typ in {SHIFT, REDUCE}
            && !(list[i].typ == REDUCE && list[j].typ == SHIFT))
    && (forall i | 0 <= i < |list| :: list[i].typ in {SHIFT, REDUCE, ACCEPT})
  }

  /** The same actions, some of them no longer live. */
  ghost predicate SameActions(list: seq<Action>, res: seq<Action>) {
    && |res| == |list|
    && forall i | 0 <= i < |list| ::
         && res[i].sp == list[i].sp && res[i].x == list[i].x
         && Origin(res[i].typ) == list[i].typ
         && res[i].typ != ERROR && res[i].typ != SHIFTREDUCE
  }

  /** The pairs settled so far: all with the first before k, and those of k up to m. */
  ghost predicate Settled(res: seq<Action>, k: nat, m: nat) {
    forall i, j | 0 <= i < j < |res| && res[i].sp == res[j].sp && (i < k || (i == k && j < m)) ::
      !(Live(res[i]) && Live(res[j]))
  }

  ghost predicate EachGroupLives(res: seq<Action>) {
    forall i | 0 <= i < |res| :: GroupLives(res, res[i].sp)
  }

  ghost predicate GroupLives(res: seq<Action>, x: nat) {
    exists j :: 0 <= j < |res| && res[j].sp == x && Live(res[j])
  }

  function CountConflicts(res: seq<Action>): nat {
    if res == [] then 0
    else CountConflicts(res[..|res| - 1]) + if Conflict(res[|res| - 1]) then 1 else 0
  }

  /** The outcome: every lookahead keeps exactly one live action. */
  ghost predicate Resolved(list: seq<Action>, res: seq<Action>) {
    && SameActions(list, res)
    && EachGroupLives(res)
    && forall i, j | 0 <= i < j < |res| && res[i].sp == res[j].sp :: !(Live(res[i]) && Live(res[j]))
  }

  lemma {:induction false} CountUpdate(res: seq<Action>, i: nat, a: Action)
    requires i < |res|
    ensures CountConflicts(res[i := a]) + (if Conflict(res[i]) then 1 else 0) ==
            CountConflicts(res) + (if Conflict(a) then 1 else 0)
  {
    var n := |res| - 1;
    if i == n {
      assert res[i := a][..n] == res[..n];
    } else {
      CountUpdate(res[..n], i, a);
      assert res[i := a][..n] == res[..n][i := a];
    }
  }

  function WithTypes(res: seq<Action>, k: nat, m: nat, r: (ActionType, ActionType, nat)): seq<Action>
    requires k < m < |res|
  {
    res[k := res[k].(typ := r.0)][m := res[m].(typ := r.1)]
  }

  /** One comparison of the pair (k, m). */
  lemma ResolveStep(g: Grammar, list: seq<Action>, res: seq<Action>, k: nat, m: nat)
    requires Grouped(list) && SameActions(list, res) && EachGroupLives(res) && Settled(res, k, m)
    requires k < m < |res| && res[k].sp == res[m].sp && !Tie(g, res[k], res[m])
    ensures var res' := WithTypes(res, k, m, ResolveConflict(g, res[k], res[m]));
            && |res'| == |res| && (forall i | 0 <= i < |res| :: res'[i].sp == res[i].sp)
            && SameActions(list, res') && EachGroupLives(res') && Settled(res', k, m + 1)
    ensures PairOk(res[k], res[m])
  {
    var r := ResolveConflict(g, res[k], res[m]);
    var x, y := res[k].(typ := r.0), res[m].(typ := r.1);
    PairTypes(g, list, res, k, m);
    hide ResolveConflict;
    PairReplaced(list, res, k, m, x, y);
  }

  lemma PairReplaced(list: seq<Action>, res: seq<Action>, k: nat, m: nat, x: Action, y: Action)
    requires SameActions(list, res) && EachGroupLives(res) && Settled(res, k, m) && k < m < |res|
    requires res[k].sp == res[m].sp == x.sp == y.sp && x.x == res[k].x && y.x == res[m].x
    requires Origin(x.typ) == list[k].typ && Origin(y.typ) == list[m].typ
    requires x.typ !in {ERROR, SHIFTREDUCE} && y.typ !in {ERROR, SHIFTREDUCE}
    requires !(Live(x) && Live(y)) && (Live(x) ==> Live(res[k])) && (Live(y) ==> Live(res[m]))
    requires Live(res[k]) || Live(res[m]) ==> Live(x) || Live(y)
    ensures var res' := res[k := x][m := y];
            SameActions(list, res') && EachGroupLives(res') && Settled(res', k, m + 1)
  {
    hide Live, Origin, GroupLives, Settled;
    var res' := res[k := x][m := y];
    forall i | 0 <= i < |res'|
      ensures GroupLives(res', res'[i].sp)
    {
      assert res'[i].sp == res[i].sp && GroupLives(res, res[i].sp);
      StillLives(res, k, m, x, y, res[i].sp);
    }
    StillSettled(res, k, m, x, y);
  }

  lemma StillLives(res: seq<Action>, k: nat, m: nat, x: Action, y: Action, sp: nat)
    requires k < m < |res| && res[k].sp == res[m].sp == x.sp == y.sp && GroupLives(res, sp)
    requires Live(res[k]) || Live(res[m]) ==> Live(x) || Live(y)
    ensures GroupLives(res[k := x][m := y], sp)
  {
    hide Live;
    var res' := res[k := x][m := y];
    var j :| 0 <= j < |res| && res[j].sp == sp && Live(res[j]);
    var j' := if j == k || j == m then (if Live(x) then k else m) else j;
    assert res'[j'].sp == sp && Live(res'[j']);
  }

  lemma StillSettled(res: seq<Action>, k: nat, m: nat, x: Action, y: Action)
    requires k < m < |res| && res[k].sp == res[m].sp == x.sp == y.sp && Settled(res, k, m)
    requires !(Live(x) && Live(y)) && (Live(x) ==> Live(res[k])) && (Live(y) ==> Live(res[m]))
    ensures Settled(res[k := x][m := y], k, m + 1)
  {
    hide Live;
    var res' := res[k := x][m := y];
    forall i, j | 0 <= i < j < |res'| && res'[i].sp == res'[j].sp && (i < k || (i == k && j < m + 1))
      ensures !(Live(res'[i]) && Live(res'[j]))
    {
      assert res[i].sp == res[j].sp;
      assert (i == k && j == m) || !(Live(res[i]) && Live(res[j]));
    }
  }

  lemma PairTypes(g: Grammar, list: seq<Action>, res: seq<Action>, k: nat, m: nat)
    requires Grouped(list) && SameActions(list, res)
    requires k < m < |res| && res[k].sp == res[m].sp && !Tie(g, res[k], res[m])
    ensures var r := ResolveConflict(g, res[k], res[m]);
            var x, y := res[k].(typ := r.0), res[m].(typ := r.1);
            && Origin(x.typ) == list[k].typ && Origin(y.typ) == list[m].typ
            && x.typ !in {ERROR, SHIFTREDUCE} && y.typ !in {ERROR, SHIFTREDUCE}
            && !(Live(x) && Live(y))
            && (Live(x) ==> Live(res[k])) && (Live(y) ==> Live(res[m]))
            && (Live(res[k]) || Live(res[m]) ==> Live(x) || Live(y))
            && PairOk(res[k], res[m])
  {
    if Live(res[k]) && Live(res[m]) {
      OneSurvives(g, res[k], res[m]);
    }
  }

  // ---------------------------------------------------------------- the two loops

  /** All pairs from (k, m) on. */
  function ResolvePairs(g: Grammar, res: seq<Action>, k: nat, m: nat): (r: seq<Action>)
    requires k < m
    ensures |r| == |res|
    decreases |res| - k, |res| - m
  {
    if k >= |res| then res
    else if m < |res| && res[m].sp == res[k].sp then
      ResolvePairs(g, WithTypes(res, k, m, ResolveConflict(g, res[k], res[m])), k, m + 1)
    else ResolvePairs(g, res, k + 1, k + 2)
  }

  /** Whether the assertion holds for all of them. */
  predicate PairsOk(g: Grammar, res: seq<Action>, k: nat, m: nat)
    requires k < m
    decreases |res| - k, |res| - m
  {
    if k >= |res| then true
    else if m < |res| && res[m].sp == res[k].sp then
      PairOk(res[k], res[m]) && PairsOk(g, WithTypes(res, k, m, ResolveConflict(g, res[k], res[m])), k, m + 1)
    else PairsOk(g, res, k + 1, k + 2)
  }

  /** The shift loses to the reduction, or ties with it. */
  predicate Loses(g: Grammar, s: Action, r: Action) {
    var spx, spy := Prec(g, s.sp), Prec(g, Precsym(g, r.x));
    0 <= spx && 0 <= spy && (spx < spy || (spx == spy && g.symbols[s.sp].assoc != RIGHT))
  }

  ghost predicate Unbeaten(g: Grammar, list: seq<Action>, k: nat, m: nat)
    requires k < |list| && m <= |list|
  {
    forall j | k < j < m && list[j].typ == REDUCE :: !Loses(g, list[k], list[j])
  }

  /** The first action of a lookahead. */
  ghost predicate Leads(list: seq<Action>, k: nat)
    requires k < |list|
  {
    forall i | 0 <= i < k :: list[i].sp < list[k].sp
  }

  /** The shift of a lookahead comes through to a reduction that it ties with. */
  ghost predicate TieAt(g: Grammar, list: seq<Action>, k: nat, m: nat) {
    && k < m < |list| && list[k].sp == list[m].sp
    && Leads(list, k) && Tie(g, list[k], list[m]) && Unbeaten(g, list, k, m)
  }

  ghost predicate TieReached(g: Grammar, list: seq<Action>) {
    exists k, m :: TieAt(g, list, k, m)
  }

  /** The two loops over the actions of one state. */
  method ResolveAll(g: Grammar, list: seq<Action>) returns (res: seq<Action>, nconflict: nat, ok: bool)
    requires Grouped(list)
    ensures res == ResolvePairs(g, list, 0, 1) && ok == PairsOk(g, list, 0, 1)
    ensures nconflict == CountConflicts(res)
    ensures Resolved(list, res) <==> !TieReached(g, list)
    ensures Resolved(list, res) ==> ok
  {
    hide *;
    ResolvedIffNoTie(g, list);
    res, nconflict, ok := list, 0, true;
    ResolveStart(list);
    for k := 0 to |list|
      invariant |res| == |list| && ResolvePairs(g, list, 0, 1) == ResolvePairs(g, res, k, k + 1)
      invariant PairsOk(g, list, 0, 1) == (ok && PairsOk(g, res, k, k + 1))
      invariant nconflict == CountConflicts(res)
    {
      var m := k + 1;
      while m < |res| && res[m].sp == res[k].sp
        invariant k < m <= |list| == |res|
        invariant ResolvePairs(g, list, 0, 1) == ResolvePairs(g, res, k, m)
        invariant PairsOk(g, list, 0, 1) == (ok && PairsOk(g, res, k, m))
        invariant nconflict == CountConflicts(res)
      {
        NextPair(g, res, k, m);
        var r := ResolveConflict(g, res[k], res[m]);
        ok := ok && PairOk(res[k], res[m]);
        res := WithTypes(res, k, m, r);
        nconflict := nconflict + r.2;
        m := m + 1;
      }
      NextFirst(g, res, k, m);
    }
    LastPair(g, res);
  }

  /** One comparison, seen from the specification. */
  lemma NextPair(g: Grammar, res: seq<Action>, k: nat, m: nat)
    requires k < m < |res| && res[m].sp == res[k].sp
    ensures var r := ResolveConflict(g, res[k], res[m]);
            var res' := WithTypes(res, k, m, r);
            && |res'| == |res| && (forall i | 0 <= i < |res| :: res'[i].sp == res[i].sp)
            && ResolvePairs(g, res, k, m) == ResolvePairs(g, res', k, m + 1)
            && PairsOk(g, res, k, m) == (PairOk(res[k], res[m]) && PairsOk(g, res', k, m + 1))
            && CountConflicts(res') == CountConflicts(res) + r.2
  {
    var r := ResolveConflict(g, res[k], res[m]);
    CountUpdate(res, k, res[k].(typ := r.0));
    CountUpdate(res[k := res[k].(typ := r.0)], m, res[m].(typ := r.1));
  }

  lemma NextFirst(g: Grammar, res: seq<Action>, k: nat, m: nat)
    requires k < m <= |res| && (m < |res| ==> res[m].sp != res[k].sp)
    ensures ResolvePairs(g, res, k, m) == ResolvePairs(g, res, k + 1, k + 2)
    ensures PairsOk(g, res, k, m) == PairsOk(g, res, k + 1, k + 2)
  {
  }

  lemma LastPair(g: Grammar, res: seq<Action>)
    ensures ResolvePairs(g, res, |res|, |res| + 1) == res && PairsOk(g, res, |res|, |res| + 1)
  {
  }

  lemma ResolveStart(list: seq<Action>)
    requires Grouped(list)
    ensures CountConflicts(list) == 0 && EachGroupLives(list) && SameActions(list, list) && Settled(list, 0, 1)
  {
    NoConflictsYet(list);
  }

  lemma AllSettled(list: seq<Action>, res: seq<Action>)
    requires SameActions(list, res) && EachGroupLives(res) && Settled(res, |list|, |list| + 1)
    ensures Resolved(list, res)
  {
  }

  lemma {:induction false} NoConflictsYet(list: seq<Action>)
    requires forall i | 0 <= i < |list| :: list[i].typ in {SHIFT, REDUCE, ACCEPT}
    ensures CountConflicts(list) == 0 && EachGroupLives(list) && SameActions(list, list) && Settled(list, 0, 1)
  {
    if list != [] {
      NoConflictsYet(list[..|list| - 1]);
    }
    forall i | 0 <= i < |list|
      ensures GroupLives(list, list[i].sp)
    {
      assert Live(list[i]);
    }
  }

  lemma GroupDone(list: seq<Action>, res: seq<Action>, k: nat, m: nat)
    requires Grouped(list) && SameActions(list, res) && Settled(res, k, m)
    requires k < m <= |res| && (m < |res| ==> res[m].sp != res[k].sp)
    ensures Settled(res, k + 1, k + 2)
  {
  }

  // ---------------------------------------------------------------- when it settles everything

  /** What is known in the middle of the loops, ties or not. */
  ghost predicate Tracked(g: Grammar, list: seq<Action>, res: seq<Action>, k: nat, m: nat) {
    && |res| == |list| && k < m <= |list|
    && (forall i | 0 <= i < |list| ::
        res[i].sp == list[i].sp && res[i].x == list[i].x && (res[i].typ == SHIFT ==> list[i].typ == SHIFT))
    && Untouched(list, res, k, m)
    && (Leads(list, k) && list[k].typ == SHIFT ==> (res[k].typ == SHIFT <==> Unbeaten(g, list, k, m)))
    && SecondShifts(list, res, k, m)
  }

  ghost predicate Untouched(list: seq<Action>, res: seq<Action>, k: nat, m: nat)
    requires |res| == |list| && k < |list|
  {
    forall j | k < j < |list| && (list[j].sp > list[k].sp || (Leads(list, k) && j >= m)) :: res[j] == list[j]
  }

  /** A second shift on one lookahead is dead once it has met the first. */
  ghost predicate SecondShifts(list: seq<Action>, res: seq<Action>, k: nat, m: nat)
    requires |res| == |list|
  {
    forall i, j | 0 <= i < j < |list| && list[i].sp == list[j].sp && list[i].typ == list[j].typ == SHIFT
      && (i < k || (i == k && j < m)) ::
      !Live(res[j])
  }

  lemma TrackedStart(g: Grammar, list: seq<Action>)
    requires list != []
    ensures Tracked(g, list, list, 0, 1)
  {
  }

  /** A shift that is not the first of its lookahead comes behind one. */
  lemma LedByShift(list: seq<Action>, k: nat) returns (i: nat)
    requires Grouped(list) && k < |list| && !Leads(list, k) && list[k].typ == SHIFT
    ensures i < k && list[i].sp == list[k].sp && list[i].typ == SHIFT
  {
    i :| 0 <= i < k && list[i].sp >= list[k].sp;
  }

  lemma TrackPair(g: Grammar, list: seq<Action>, res: seq<Action>, k: nat, m: nat)
    requires Grouped(list) && Tracked(g, list, res, k, m) && m < |list| && list[m].sp == list[k].sp
    ensures Tracked(g, list, WithTypes(res, k, m, ResolveConflict(g, res[k], res[m])), k, m + 1)
  {
    hide Grouped, SecondShifts, Unbeaten;
    var res' := WithTypes(res, k, m, ResolveConflict(g, res[k], res[m]));
    TrackSecond(g, list, res, k, m);
    if Leads(list, k) && list[k].typ == SHIFT {
      assert res[m] == list[m];
      UnbeatenNext(g, list, k, m);
      InGroup(list, k, m);
    }
  }

  lemma UnbeatenNext(g: Grammar, list: seq<Action>, k: nat, m: nat)
    requires k < m < |list|
    ensures Unbeaten(g, list, k, m + 1) <==>
            Unbeaten(g, list, k, m) && (list[m].typ == REDUCE ==> !Loses(g, list[k], list[m]))
  {
  }

  lemma InGroup(list: seq<Action>, k: nat, m: nat)
    requires Grouped(list) && k < m < |list| && list[m].sp == list[k].sp
    ensures list[m].typ in {SHIFT, REDUCE}
  {
  }

  lemma TrackSecond(g: Grammar, list: seq<Action>, res: seq<Action>, k: nat, m: nat)
    requires Grouped(list) && Tracked(g, list, res, k, m) && m < |list| && list[m].sp == list[k].sp
    ensures SecondShifts(list, WithTypes(res, k, m, ResolveConflict(g, res[k], res[m])), k, m + 1)
  {
    var res' := WithTypes(res, k, m, ResolveConflict(g, res[k], res[m]));
    if list[k].typ == SHIFT && list[m].typ == SHIFT {
      if Leads(list, k) {
        assert Unbeaten(g, list, k, m);
        assert res[m] == list[m];
      } else {
        var i := LedByShift(list, k);
        assert !Live(res[m]);
      }
    }
  }

  lemma TrackFirst(g: Grammar, list: seq<Action>, res: seq<Action>, k: nat, m: nat)
    requires Grouped(list) && Tracked(g, list, res, k, m) && k + 1 < |list|
    requires m < |list| ==> list[m].sp != list[k].sp
    ensures Tracked(g, list, res, k + 1, k + 2)
  {
    assert list[k].sp <= list[k + 1].sp;
    if Leads(list, k + 1) {
      assert res[k + 1] == list[k + 1];
    }
  }

  /** A tie in the middle of the loops is one that the list shows. */
  lemma TieShows(g: Grammar, list: seq<Action>, res: seq<Action>, k: nat, m: nat)
    requires Grouped(list) && Tracked(g, list, res, k, m) && SameActions(list, res)
    requires m < |list| && list[m].sp == list[k].sp && Tie(g, res[k], res[m])
    ensures TieAt(g, list, k, m)
  {
    if !Leads(list, k) { SecondIsDead(g, list, res, k, m); }
  }

  lemma SecondIsDead(g: Grammar, list: seq<Action>, res: seq<Action>, k: nat, m: nat)
    requires Grouped(list) && Tracked(g, list, res, k, m) && !Leads(list, k) && list[k].typ == SHIFT
    ensures !Live(res[k])
  {
    var i := LedByShift(list, k);
  }

  lemma {:induction false} PairsResolve(g: Grammar, list: seq<Action>, res: seq<Action>, k: nat, m: nat)
    requires Grouped(list) && !TieReached(g, list) && k < m && k <= |list|
    requires k < |list| ==> Tracked(g, list, res, k, m)
    requires SameActions(list, res) && EachGroupLives(res) && Settled(res, k, m) && (k == |list| ==> m == |list| + 1)
    ensures Resolved(list, ResolvePairs(g, res, k, m)) && PairsOk(g, res, k, m)
    decreases |list| - k, |list| - m
  {
    hide Tracked, Grouped, EachGroupLives, Settled, ResolveConflict, Tie, TieAt, PairOk, WithTypes, Resolved;
    if k == |list| {
      AllSettled(list, res);
    } else {
      TrackedSizes(g, list, res, k, m);
      if m < |res| && res[m].sp == res[k].sp {
        if Tie(g, res[k], res[m]) { TieShows(g, list, res, k, m); }
        ResolveStep(g, list, res, k, m);
        TrackPair(g, list, res, k, m);
        PairsResolve(g, list, WithTypes(res, k, m, ResolveConflict(g, res[k], res[m])), k, m + 1);
      } else {
        GroupDone(list, res, k, m);
        if k + 1 < |list| { TrackFirst(g, list, res, k, m); }
        PairsResolve(g, list, res, k + 1, k + 2);
      }
    }
  }

  lemma TrackedSizes(g: Grammar, list: seq<Action>, res: seq<Action>, k: nat, m: nat)
    requires Tracked(g, list, res, k, m)
    ensures |res| == |list| && k < m <= |list| && forall i | 0 <= i < |list| :: res[i].sp == list[i].sp
  {
  }

  /** An error and a reduction on one lookahead. */
  ghost predicate TwoLeft(res: seq<Action>, k: nat) {
    && k < |res| && res[k].typ == ERROR
    && exists j :: k < j < |res| && res[j].sp == res[k].sp && res[j].typ == REDUCE
  }

  lemma TwoAfterPair(g: Grammar, list: seq<Action>, res: seq<Action>, k: nat, m: nat, k0: nat)
    requires Tracked(g, list, res, k, m) && m < |list| && list[m].sp == list[k].sp
    requires k0 <= k && list[k0].typ == SHIFT && TwoLeft(res, k0)
    ensures TwoLeft(WithTypes(res, k, m, ResolveConflict(g, res[k], res[m])), k0)
  {
    var res' := WithTypes(res, k, m, ResolveConflict(g, res[k], res[m]));
    var j :| k0 < j < |res| && res[j].sp == res[k0].sp && res[j].typ == REDUCE;
    assert k > k0 && list[k].sp == list[k0].sp ==> res[k].typ != SHIFT;
    var j' := if k0 < k && (j == k || j == m) && res[k].typ == res[m].typ == REDUCE && res'[j].typ != REDUCE
        then k + m - j else j;
    assert k0 < j' && res'[j'].sp == res'[k0].sp && res'[j'].typ == REDUCE;
  }

  lemma {:induction false} TwoStay(g: Grammar, list: seq<Action>, res: seq<Action>, k: nat, m: nat, k0: nat)
    requires Grouped(list) && k < m && k <= |list| == |res| && (k < |list| ==> Tracked(g, list, res, k, m))
    requires k0 <= k && k0 < |list| && list[k0].typ == SHIFT && TwoLeft(res, k0)
    ensures TwoLeft(ResolvePairs(g, res, k, m), k0)
    decreases |list| - k, |list| - m
  {
    hide Tracked, TwoLeft, Grouped, ResolveConflict, WithTypes;
    if k < |list| {
      TrackedSizes(g, list, res, k, m);
      if m < |res| && res[m].sp == res[k].sp {
        var res' := WithTypes(res, k, m, ResolveConflict(g, res[k], res[m]));
        TrackPair(g, list, res, k, m);
        TwoAfterPair(g, list, res, k, m, k0);
        TrackedSizes(g, list, res', k, m + 1);
        TwoStay(g, list, res', k, m + 1, k0);
      } else {
        if k + 1 < |list| { TrackFirst(g, list, res, k, m); }
        TwoStay(g, list, res, k + 1, k + 2, k0);
      }
    }
  }

  lemma {:induction false} TieLeavesTwo(g: Grammar, list: seq<Action>, res: seq<Action>, k: nat, m: nat, k0: nat,
                                        m0: nat)
    requires Grouped(list) && Tracked(g, list, res, k, m) && TieAt(g, list, k0, m0)
    requires k < k0 || (k == k0 && m <= m0)
    ensures TwoLeft(ResolvePairs(g, res, k, m), k0)
    decreases |list| - k, |list| - m
  {
    hide Tracked, TwoLeft, Grouped, ResolveConflict, WithTypes, TieAt;
    TrackedSizes(g, list, res, k, m);
    TieFacts(g, list, k0, m0);
    if m < |res| && res[m].sp == res[k].sp {
      var res' := WithTypes(res, k, m, ResolveConflict(g, res[k], res[m]));
      TrackPair(g, list, res, k, m);
      TrackedSizes(g, list, res', k, m + 1);
      if k == k0 && m == m0 {
        TieStep(g, list, res, k, m);
        TwoStay(g, list, res', k, m + 1, k0);
      } else {
        TieLeavesTwo(g, list, res', k, m + 1, k0, m0);
      }
    } else {
      if k == k0 { GroupEnds(list, k, m, m0); }
      TrackFirst(g, list, res, k, m);
      TieLeavesTwo(g, list, res, k + 1, k + 2, k0, m0);
    }
  }

  lemma TieFacts(g: Grammar, list: seq<Action>, k0: nat, m0: nat)
    requires TieAt(g, list, k0, m0)
    ensures k0 < m0 < |list| && list[k0].sp == list[m0].sp && list[k0].typ == SHIFT
  {
  }

  lemma GroupEnds(list: seq<Action>, k: nat, m: nat, m0: nat)
    requires Grouped(list) && k < m <= m0 < |list| && list[m].sp != list[k].sp
    ensures list[m0].sp != list[k].sp
  {
  }

  lemma TieStep(g: Grammar, list: seq<Action>, res: seq<Action>, k: nat, m: nat)
    requires Tracked(g, list, res, k, m) && TieAt(g, list, k, m)
    ensures TwoLeft(WithTypes(res, k, m, ResolveConflict(g, res[k], res[m])), k)
  {
    assert res[m] == list[m] && res[k].typ == SHIFT;
    var res' := WithTypes(res, k, m, ResolveConflict(g, res[k], res[m]));
    assert res'[m].sp == res'[k].sp && res'[m].typ == REDUCE;
  }

  /** Every lookahead is left with exactly one live action unless a shift comes through to a reduction that
      it ties with, under %nonassoc; then the error and a reduction are both left. */
  lemma ResolvedIffNoTie(g: Grammar, list: seq<Action>)
    requires Grouped(list)
    ensures Resolved(list, ResolvePairs(g, list, 0, 1)) <==> !TieReached(g, list)
    ensures Resolved(list, ResolvePairs(g, list, 0, 1)) ==> PairsOk(g, list, 0, 1)
    ensures TieReached(g, list) ==> exists k :: TwoLeft(ResolvePairs(g, list, 0, 1), k)
  {
    hide Tracked, Grouped, TieAt, EachGroupLives, Settled, SameActions;
    if k, m :| TieAt(g, list, k, m) {
      TieFacts(g, list, k, m);
      TrackedStart(g, list);
      TieLeavesTwo(g, list, list, 0, 1, k, m);
      NotResolved(list, ResolvePairs(g, list, 0, 1), k);
    } else {
      ResolveStart(list);
      if list != [] { TrackedStart(g, list); }
      PairsResolve(g, list, list, 0, 1);
    }
  }

  /** The least such list: a shift and a reduction, which come out as an error and a reduction. */
  lemma NonassocLeavesTwo(g: Grammar, x: nat, q: nat, r: nat)
    requires x < |g.symbols| && g.symbols[x].assoc == NONE && g.symbols[x].prec >= 0
    requires r < |g.rules| && g.rules[r].precsym == x
    ensures var list := [Action(x, SHIFT, q), Action(x, REDUCE, r)];
            Grouped(list) && ResolvePairs(g, list, 0, 1) == [Action(x, ERROR, q), Action(x, REDUCE, r)]
  {
    var list := [Action(x, SHIFT, q), Action(x, REDUCE, r)];
    var res := WithTypes(list, 0, 1, ResolveConflict(g, list[0], list[1]));
    assert res == [Action(x, ERROR, q), Action(x, REDUCE, r)];
    assert ResolvePairs(g, list, 0, 1) == ResolvePairs(g, res, 0, 2) == ResolvePairs(g, res, 1, 2)
           == ResolvePairs(g, res, 2, 3);
  }

  lemma NotResolved(list: seq<Action>, res: seq<Action>, k: nat)
    requires TwoLeft(res, k)
    ensures !Resolved(list, res)
  {
  }

  // ---------------------------------------------------------------- the actions of a state

  /** `actioncmp`.  The order of two actions that agree in all this is that of their addresses,
      which is not part of the model. */
  function TypeOrder(t: ActionType): nat {
    match t
    case SHIFT => 0
    case ACCEPT => 1
    case REDUCE => 2
    case ERROR => 3
    case SSCONFLICT => 4
    case SRCONFLICT => 5
    case RRCONFLICT => 6
    case SH_RESOLVED => 7
    case RD_RESOLVED => 8
    case NOT_USED => 9
    case SHIFTREDUCE => 10
  }

  function RuleIndex(g: Grammar, r: nat): int {
    if r < |g.rules| then g.rules[r].index else 0
  }

  function Actioncmp(g: Grammar, a: Action, b: Action): int {
    if a.sp != b.sp then a.sp - b.sp
    else if a.typ != b.typ then TypeOrder(a.typ) - TypeOrder(b.typ)
    else if a.typ == REDUCE || a.typ == SHIFTREDUCE then RuleIndex(g, a.x) - RuleIndex(g, b.x)
    else 0
  }

  function ActionOrder(g: Grammar): (Action, Action) -> int {
    (a: Action, b: Action) => Actioncmp(g, a, b)
  }

  lemma ActionOrderCompares(g: Grammar)
    ensures Comparison(ActionOrder(g))
  {
  }

  /** `Action_sort`. */
  method SortActions(g: Grammar, list: seq<Action>) returns (sorted: seq<Action>)
    requires |list| < Pow2(LISTSIZE)
    ensures Sorted(ActionOrder(g), sorted) && multiset(sorted) == multiset(list)
  {
    ActionOrderCompares(g);
    sorted := Msort(list, ActionOrder(g));
  }

  /** Configuration i asks for the reduction a. */
  ghost predicate IsReduce(g: Grammar, states: seq<State>, fws: map<Config, set<nat>>, s: nat, a: Action)
    requires s < |states|
  {
    && a.typ == REDUCE
    && a.sp < g.nterminal
    && exists i :: i in states[s].cfp && AsksFor(g, fws, s, i, a)
  }

  ghost predicate IsAccept(g: Grammar, s: nat, a: Action) {
    s == 0 && a == Action(g.start, ACCEPT, 0)
  }

  /** The actions of state s before conflicts are resolved. */
  ghost predicate Wanted(g: Grammar, states: seq<State>, fws: map<Config, set<nat>>, s: nat, a: Action)
    requires s < |states|
  {
    a in states[s].ap || IsReduce(g, states, fws, s, a) || IsAccept(g, s, a)
  }

  function OriginOf(a: Action): Action {
    a.(typ := Origin(a.typ))
  }

  /** No two live actions of a state have the same lookahead. */
  ghost predicate OneLive(row: seq<Action>) {
    forall i, j | 0 <= i < j < |row| && row[i].sp == row[j].sp :: !(Live(row[i]) && Live(row[j]))
  }

  /** The finished actions of state s: all that were wanted and no others, exactly one of them
      live on every lookahead that has any. */
  ghost predicate ActionRow(g: Grammar, states: seq<State>, fws: map<Config, set<nat>>, s: nat, row: seq<Action>)
    requires s < |states|
  {
    && (forall a | a in row ::
          Wanted(g, states, fws, s, OriginOf(a)) && a.typ != ERROR && a.typ != SHIFTREDUCE && a.typ != NOT_USED)
    && (forall w | Wanted(g, states, fws, s, w) :: exists a :: a in row && OriginOf(a) == w)
    && (forall i, j | 0 <= i < j < |row| :: OriginOf(row[i]) != OriginOf(row[j]))
    && EachGroupLives(row)
    && OneLive(row)
  }

  /** Every action list fits the sorter. */
  ghost predicate SmallActions(g: Grammar) {
    |g.symbols| + |AllItems(g)| * g.nterminal + 1 < Pow2(LISTSIZE)
  }

  ghost predicate Exactly(g: Grammar, states: seq<State>, fws: map<Config, set<nat>>, s: nat, list: seq<Action>)
    requires s < |states|
  {
    forall a :: a in list <==> Wanted(g, states, fws, s, a)
  }

  lemma WantedGrouped(g: Grammar, states: seq<State>, fws: map<Config, set<nat>>, s: nat, list: seq<Action>)
    requires g.Valid() && g.StartOffRhs() && Canonical(g, states) && s < |states|
    requires Exactly(g, states, fws, s, list) && Distinct(list) && Sorted(ActionOrder(g), list)
    ensures Grouped(list)
  {
    forall i | 0 <= i < |list|
      ensures WantedShape(g, list[i])
    {
      assert list[i] in list;
      if list[i] in states[s].ap { ShiftNotStart(g, states, s, list[i]); }
    }
    forall i, j | 0 <= i < j < |list|
      ensures Actioncmp(g, list[i], list[j]) <= 0 && list[i] != list[j]
    {
      assert ActionOrder(g)(list[i], list[j]) <= 0;
    }
  }

  ghost predicate WantedShape(g: Grammar, a: Action) {
    || (a.typ == SHIFT && a.sp != g.start)
    || (a.typ == REDUCE && a.sp < g.nterminal)
    || a == Action(g.start, ACCEPT, 0)
  }

  lemma ShiftNotStart(g: Grammar, states: seq<State>, s: nat, a: Action)
    requires g.StartOffRhs() && Canonical(g, states) && s < |states| && a in states[s].ap
    ensures a.typ == SHIFT && a.sp != g.start && a.x < |states|
  {
    assert ActionsOk(g, states, s) && ShiftOk(g, states, s, a);
    var i :| i in states[s].cfp && Shifts(g, i, a.sp);
    assert g.rules[i.rule].rhs[i.dot] in g.rules[i.rule].rhs;
  }

  /** A reduce action for every token that may follow the configuration. */
  method AddReducesOf(g: Grammar, list0: seq<Action>, rule: nat, follow: set<nat>) returns (list: seq<Action>)
    requires Distinct(list0) && forall a | a in list0 :: !(a.typ == REDUCE && a.x == rule)
    ensures Distinct(list) && |list| <= |list0| + g.nterminal
    ensures forall a :: a in list <==>
              a in list0 || (a.typ == REDUCE && a.x == rule && a.sp < g.nterminal && a.sp in follow)
  {
    list := list0;
    for j := 0 to g.nterminal
      invariant Distinct(list) && |list| <= |list0| + j
      invariant forall a :: a in list <==> a in list0 || (a.typ == REDUCE && a.x == rule && a.sp < j && a.sp in follow)
    {
      if j in follow {
        assert Action(j, REDUCE, rule) !in list;
        list := [Action(j, REDUCE, rule)] + list;
      }
    }
  }

  /** The reduction a is asked for by one of the first k configurations. */
  ghost predicate ReduceAmong(g: Grammar, states: seq<State>, fws: map<Config, set<nat>>, s: nat, k: nat, a: Action)
    requires s < |states| && k <= |states[s].cfp|
  {
    && a.typ == REDUCE
    && a.sp < g.nterminal
    && exists h | 0 <= h < k :: AsksFor(g, fws, s, states[s].cfp[h], a)
  }

  ghost predicate AsksFor(g: Grammar, fws: map<Config, set<nat>>, s: nat, i: Item, a: Action) {
    AtEnd(g, i) && i.rule == a.x && Config(s, i) in fws && a.sp in fws[Config(s, i)]
  }

  method AddReduces(g: Grammar, states: seq<State>, fws: map<Config, set<nat>>, s: nat, list0: seq<Action>)
    returns (list: seq<Action>)
    requires s < |states| && Distinct(states[s].cfp)
    requires forall i | i in states[s].cfp :: Config(s, i) in fws
    requires Distinct(list0) && forall a | a in list0 :: a.typ == SHIFT
    ensures Distinct(list) && |list| <= |list0| + |states[s].cfp| * g.nterminal
    ensures forall a :: a in list <==> a in list0 || IsReduce(g, states, fws, s, a)
  {
    list := list0;
    var cfp := states[s].cfp;
    for k := 0 to |cfp|
      invariant Distinct(list) && |list| <= |list0| + k * g.nterminal
      invariant forall a :: a in list <==> a in list0 || ReduceAmong(g, states, fws, s, k, a)
    {
      Grow(|list|, |list0|, k, g.nterminal);
      if AtEnd(g, cfp[k]) {
        NoReduceYet(g, states, fws, s, k, list0, list);
        list := AddReducesOf(g, list, cfp[k].rule, fws[Config(s, cfp[k])]);
      }
      AmongNext(g, states, fws, s, k);
    }
    AmongAll(g, states, fws, s);
  }

  lemma NoReduceYet(g: Grammar, states: seq<State>, fws: map<Config, set<nat>>, s: nat, k: nat,
                    list0: seq<Action>, list: seq<Action>)
    requires s < |states| && k < |states[s].cfp| && Distinct(states[s].cfp) && AtEnd(g, states[s].cfp[k])
    requires forall a | a in list0 :: a.typ == SHIFT
    requires forall a :: a in list <==> a in list0 || ReduceAmong(g, states, fws, s, k, a)
    ensures forall a | a in list :: !(a.typ == REDUCE && a.x == states[s].cfp[k].rule)
  {
  }

  lemma Grow(n: nat, n0: nat, k: nat, t: nat)
    requires n <= n0 + k * t
    ensures n + t <= n0 + (k + 1) * t
  {
  }

  lemma AmongNext(g: Grammar, states: seq<State>, fws: map<Config, set<nat>>, s: nat, k: nat)
    requires s < |states| && k < |states[s].cfp| && Config(s, states[s].cfp[k]) in fws
    ensures forall a :: ReduceAmong(g, states, fws, s, k + 1, a) <==>
              ReduceAmong(g, states, fws, s, k, a) ||
              (a.typ == REDUCE && a.sp < g.nterminal && AsksFor(g, fws, s, states[s].cfp[k], a))
  {
  }

  lemma AmongAll(g: Grammar, states: seq<State>, fws: map<Config, set<nat>>, s: nat)
    requires s < |states|
    ensures forall a :: ReduceAmong(g, states, fws, s, |states[s].cfp|, a) <==> IsReduce(g, states, fws, s, a)
  {
    forall a | IsReduce(g, states, fws, s, a)
      ensures ReduceAmong(g, states, fws, s, |states[s].cfp|, a)
    {
      var i :| i in states[s].cfp && AsksFor(g, fws, s, i, a);
      var h :| 0 <= h < |states[s].cfp| && states[s].cfp[h] == i;
      assert AsksFor(g, fws, s, states[s].cfp[h], a);
    }
  }

  // ---------------------------------------------------------------- all states

  function SumConflicts(rows: seq<seq<Action>>): nat {
    if rows == [] then 0 else SumConflicts(rows[..|rows| - 1]) + CountConflicts(rows[|rows| - 1])
  }

  /** The list of state s once all its actions are added. */
  ghost predicate Listed(g: Grammar, states: seq<State>, fws: map<Config, set<nat>>, s: nat, list: seq<Action>)
    requires s < |states|
  {
    Exactly(g, states, fws, s, list) && Distinct(list) && |list| < Pow2(LISTSIZE)
  }

  lemma ListSizes(g: Grammar, states: seq<State>, s: nat)
    requires g.Valid() && Canonical(g, states) && s < |states|
    ensures Distinct(states[s].cfp) && Distinct(states[s].ap)
    ensures |states[s].ap| + |states[s].cfp| * g.nterminal <= |g.symbols| + |AllItems(g)| * g.nterminal
  {
    var st := states[s];
    assert StateOk(g, st) && ActionsOk(g, states, s);
    forall i, j | 0 <= i < j < |st.cfp|
      ensures st.cfp[i] != st.cfp[j]
    {
      assert ItemBefore(g, st.cfp[i], st.cfp[j]);
    }
    DistinctBound(st.cfp, AllItems(g));
    var symbols := seq(|st.ap|, i requires 0 <= i < |st.ap| => st.ap[i].sp);
    var all := UpTo(|g.symbols|);
    forall i | 0 <= i < |symbols|
      ensures symbols[i] in all
    {
      assert st.ap[i] in st.ap && ShiftOk(g, states, s, st.ap[i]);
      var it :| it in st.cfp && Shifts(g, it, st.ap[i].sp);
      assert g.ValidRule(g.rules[it.rule]);
    }
    DistinctBound(symbols, all);
    MulMonotone(|st.cfp|, |AllItems(g)|, g.nterminal);
  }

  ghost function UpTo(n: nat): (s: set<nat>)
    ensures |s| == n && forall x: nat :: x in s <==> x < n
  {
    if n == 0 then {} else UpTo(n - 1) + {n - 1}
  }

  method ListActions(g: Grammar, states: seq<State>, fws: map<Config, set<nat>>, s: nat) returns (list: seq<Action>)
    requires g.Valid() && g.StartOffRhs() && SmallActions(g) && Canonical(g, states) && Covers(states, fws)
    requires s < |states|
    ensures Listed(g, states, fws, s, list)
  {
    ListSizes(g, states, s);
    assert forall i | i in states[s].cfp :: IsConfig(states, Config(s, i));
    ShiftsOnly(g, states, s);
    list := AddReduces(g, states, fws, s, states[s].ap);
    if s == 0 {
      assert Action(g.start, ACCEPT, 0) !in list;
      list := [Action(g.start, ACCEPT, 0)] + list;
    }
  }

  lemma ShiftsOnly(g: Grammar, states: seq<State>, s: nat)
    requires g.StartOffRhs() && Canonical(g, states) && s < |states|
    ensures forall a | a in states[s].ap :: a.typ == SHIFT && a.sp != g.start && a.x < |states|
  {
    forall a | a in states[s].ap
      ensures a.typ == SHIFT && a.sp != g.start && a.x < |states|
    {
      ShiftNotStart(g, states, s, a);
    }
  }

  method ResolveState(g: Grammar, states: seq<State>, fws: map<Config, set<nat>>, s: nat, list: seq<Action>)
    returns (row: seq<Action>, nconflict: nat, ok: bool)
    requires g.Valid() && g.StartOffRhs() && Canonical(g, states) && s < |states|
    requires Listed(g, states, fws, s, list)
    ensures ResolvedFrom(g, states, fws, s, row) && nconflict == CountConflicts(row) && |row| < Pow2(LISTSIZE)
    ensures ActionRow(g, states, fws, s, row) <==> !StateTie(g, states, fws, s)
    ensures ActionRow(g, states, fws, s, row) ==> ok
    ensures Asserts(g, states, fws, s, ok)
  {
    hide *;
    ListedSize(g, states, fws, s, list);
    var sorted := SortActions(g, list);
    SortedList(g, states, fws, s, list, sorted);
    row, nconflict, ok := ResolveAll(g, sorted);
    TieReachedIff(g, states, fws, s, sorted);
    ResolvedFromList(g, states, fws, s, sorted, row);
    AssertsFromList(g, states, fws, s, sorted);
    if Resolved(sorted, row) {
      ResolvedRow(g, states, fws, s, sorted, row);
    } else {
      ResolvedIffNoTie(g, sorted);
      var k :| TwoLeft(row, k);
      ErrorNotWanted(g, states, fws, s, row, k);
    }
  }

  /** The row is made by resolving the sorted list of what is wanted. */
  ghost predicate ResolvedFrom(g: Grammar, states: seq<State>, fws: map<Config, set<nat>>, s: nat, row: seq<Action>)
    requires s < |states|
  {
    exists list :: SortedWanted(g, states, fws, s, list) && row == ResolvePairs(g, list, 0, 1)
  }

  /** Whether the last assertion of `resolve_conflict` holds for all pairs of that list. */
  ghost predicate Asserts(g: Grammar, states: seq<State>, fws: map<Config, set<nat>>, s: nat, ok: bool)
    requires s < |states|
  {
    exists list :: SortedWanted(g, states, fws, s, list) && ok == PairsOk(g, list, 0, 1)
  }

  ghost predicate SortedWanted(g: Grammar, states: seq<State>, fws: map<Config, set<nat>>, s: nat, list: seq<Action>)
    requires s < |states|
  {
    Exactly(g, states, fws, s, list) && Distinct(list) && Sorted(ActionOrder(g), list)
  }

  lemma ListedSize(g: Grammar, states: seq<State>, fws: map<Config, set<nat>>, s: nat, list: seq<Action>)
    requires s < |states| && Listed(g, states, fws, s, list)
    ensures |list| < Pow2(LISTSIZE)
  {
  }

  lemma ResolvedFromList(g: Grammar, states: seq<State>, fws: map<Config, set<nat>>, s: nat, list: seq<Action>,
                         row: seq<Action>)
    requires s < |states| && SortedWanted(g, states, fws, s, list) && row == ResolvePairs(g, list, 0, 1)
    ensures ResolvedFrom(g, states, fws, s, row)
  {
  }

  lemma AssertsFromList(g: Grammar, states: seq<State>, fws: map<Config, set<nat>>, s: nat, list: seq<Action>)
    requires s < |states| && SortedWanted(g, states, fws, s, list)
    ensures Asserts(g, states, fws, s, PairsOk(g, list, 0, 1))
  {
  }

  lemma ErrorNotWanted(g: Grammar, states: seq<State>, fws: map<Config, set<nat>>, s: nat, row: seq<Action>, k: nat)
    requires s < |states| && TwoLeft(row, k)
    ensures !ActionRow(g, states, fws, s, row)
  {
    assert row[k] in row;
  }

  // ---------------------------------------------------------------- ties of a state

  /** In state s a shift ties with a reduction, under %nonassoc, and loses to no reduction by an earlier rule. */
  ghost predicate StateTie(g: Grammar, states: seq<State>, fws: map<Config, set<nat>>, s: nat)
    requires s < |states|
  {
    exists a, b :: TiePair(g, states, fws, s, a, b)
  }

  ghost predicate TiePair(g: Grammar, states: seq<State>, fws: map<Config, set<nat>>, s: nat, a: Action, b: Action)
    requires s < |states|
  {
    && Wanted(g, states, fws, s, a) && Wanted(g, states, fws, s, b) && a.sp == b.sp && Tie(g, a, b)
    && forall c | Earlier(g, states, fws, s, c, b) :: !Loses(g, a, c)
  }

  ghost predicate Earlier(g: Grammar, states: seq<State>, fws: map<Config, set<nat>>, s: nat, c: Action, b: Action)
    requires s < |states|
  {
    Wanted(g, states, fws, s, c) && c.typ == REDUCE && c.sp == b.sp && RuleIndex(g, c.x) < RuleIndex(g, b.x)
  }

  /** The pass over the sorted list reaches a tie exactly when the state has one. */
  lemma TieReachedIff(g: Grammar, states: seq<State>, fws: map<Config, set<nat>>, s: nat, list: seq<Action>)
    requires g.Valid() && Canonical(g, states) && s < |states| && SortedWanted(g, states, fws, s, list)
    ensures TieReached(g, list) <==> StateTie(g, states, fws, s)
  {
    hide *;
    if TieReached(g, list) {
      var k, m := SomeTie(g, list);
      TieInState(g, states, fws, s, list, k, m);
    }
    if StateTie(g, states, fws, s) {
      var a, b := SomePair(g, states, fws, s);
      TieInList(g, states, fws, s, list, a, b);
    }
  }

  lemma SomeTie(g: Grammar, list: seq<Action>) returns (k: nat, m: nat)
    requires TieReached(g, list)
    ensures TieAt(g, list, k, m)
  {
    k, m :| TieAt(g, list, k, m);
  }

  lemma SomePair(g: Grammar, states: seq<State>, fws: map<Config, set<nat>>, s: nat) returns (a: Action, b: Action)
    requires s < |states| && StateTie(g, states, fws, s)
    ensures TiePair(g, states, fws, s, a, b)
  {
    a, b :| TiePair(g, states, fws, s, a, b);
  }

  lemma ComparedPairs(g: Grammar, list: seq<Action>)
    requires Sorted(ActionOrder(g), list)
    ensures forall i, j | 0 <= i < j < |list| :: Actioncmp(g, list[i], list[j]) <= 0
  {
    forall i, j | 0 <= i < j < |list|
      ensures Actioncmp(g, list[i], list[j]) <= 0
    {
      assert ActionOrder(g)(list[i], list[j]) <= 0;
    }
  }

  lemma TieInState(g: Grammar, states: seq<State>, fws: map<Config, set<nat>>, s: nat, list: seq<Action>, k: nat,
                   m: nat)
    requires s < |states| && SortedWanted(g, states, fws, s, list) && TieAt(g, list, k, m)
    ensures StateTie(g, states, fws, s) && TiePair(g, states, fws, s, list[k], list[m])
  {
    hide Wanted, Loses, Distinct;
    ComparedPairs(g, list);
    forall c | Earlier(g, states, fws, s, c, list[m])
      ensures !Loses(g, list[k], c)
    {
      var j :| 0 <= j < |list| && list[j] == c;
      assert j < m && k < j;
    }
    assert list[k] in list && list[m] in list;
    assert TiePair(g, states, fws, s, list[k], list[m]);
  }

  lemma TieInList(g: Grammar, states: seq<State>, fws: map<Config, set<nat>>, s: nat, list: seq<Action>, a: Action,
                  b: Action)
    requires g.Valid() && Canonical(g, states) && s < |states|
    requires SortedWanted(g, states, fws, s, list) && TiePair(g, states, fws, s, a, b)
    ensures TieReached(g, list)
  {
    hide *;
    var k, m := PairPlaces(g, states, fws, s, list, a, b);
    ShiftLeads(g, states, fws, s, list, k);
    NotBeatenBefore(g, states, fws, s, list, k, m);
    IsTie(g, list, k, m);
  }

  lemma IsTie(g: Grammar, list: seq<Action>, k: nat, m: nat)
    requires k < m < |list| && list[k].sp == list[m].sp && Leads(list, k)
    requires Tie(g, list[k], list[m]) && Unbeaten(g, list, k, m)
    ensures TieReached(g, list)
  {
    assert TieAt(g, list, k, m);
  }

  lemma PairPlaces(g: Grammar, states: seq<State>, fws: map<Config, set<nat>>, s: nat, list: seq<Action>, a: Action,
                   b: Action)
    returns (k: nat, m: nat)
    requires s < |states| && SortedWanted(g, states, fws, s, list) && TiePair(g, states, fws, s, a, b)
    ensures k < m < |list| && list[k] == a && list[m] == b && a.sp == b.sp && a.typ == SHIFT
    ensures Tie(g, list[k], list[m]) && TiePair(g, states, fws, s, list[k], list[m])
  {
    hide Wanted, Loses, Distinct;
    ComparedPairs(g, list);
    k :| k < |list| && list[k] == a;
    m :| m < |list| && list[m] == b;
  }

  lemma ShiftLeads(g: Grammar, states: seq<State>, fws: map<Config, set<nat>>, s: nat, list: seq<Action>, k: nat)
    requires Canonical(g, states) && s < |states| && SortedWanted(g, states, fws, s, list)
    requires k < |list| && list[k].typ == SHIFT
    ensures Leads(list, k)
  {
    hide Wanted, Canonical;
    ComparedPairs(g, list);
    forall i | 0 <= i < k
      ensures list[i].sp < list[k].sp
    {
      assert list[i] in list && list[k] in list && Actioncmp(g, list[i], list[k]) <= 0;
      if list[i].sp == list[k].sp { OneShift(g, states, fws, s, list[i], list[k]); }
    }
  }

  lemma NotBeatenBefore(g: Grammar, states: seq<State>, fws: map<Config, set<nat>>, s: nat, list: seq<Action>, k: nat,
                        m: nat)
    requires g.Valid() && Canonical(g, states) && s < |states| && SortedWanted(g, states, fws, s, list)
    requires k < m < |list| && TiePair(g, states, fws, s, list[k], list[m])
    ensures Unbeaten(g, list, k, m)
  {
    hide Wanted, Loses, Canonical, Grammar.Valid;
    ComparedPairs(g, list);
    forall j | k < j < m && list[j].typ == REDUCE
      ensures !Loses(g, list[k], list[j])
    {
      assert Actioncmp(g, list[k], list[j]) <= 0 && Actioncmp(g, list[j], list[m]) <= 0;
      assert list[j] in list && list[m] in list;
      if RuleIndex(g, list[j].x) == RuleIndex(g, list[m].x) { OneReduce(g, states, fws, s, list[j], list[m]); }
      assert Earlier(g, states, fws, s, list[j], list[m]);
    }
  }

  lemma OneShift(g: Grammar, states: seq<State>, fws: map<Config, set<nat>>, s: nat, v: Action, w: Action)
    requires Canonical(g, states) && s < |states| && v.sp == w.sp && v.typ == w.typ == SHIFT
    requires Wanted(g, states, fws, s, v) && Wanted(g, states, fws, s, w)
    ensures v == w
  {
    assert ActionsOk(g, states, s) && OnePerSymbol(states[s].ap);
  }

  lemma OneReduce(g: Grammar, states: seq<State>, fws: map<Config, set<nat>>, s: nat, v: Action, w: Action)
    requires g.Valid() && Canonical(g, states) && s < |states| && v.sp == w.sp && v.typ == w.typ == REDUCE
    requires Wanted(g, states, fws, s, v) && Wanted(g, states, fws, s, w) && RuleIndex(g, v.x) == RuleIndex(g, w.x)
    ensures v == w
  {
    assert ActionsOk(g, states, s);
    assert v.x < |g.rules| && w.x < |g.rules|;
  }

  /** Without %nonassoc there are no ties. */
  lemma NoTies(g: Grammar, states: seq<State>, fws: map<Config, set<nat>>, s: nat)
    requires NoNonassoc(g) && s < |states|
    ensures !StateTie(g, states, fws, s)
  {
  }

  lemma SortedList(g: Grammar, states: seq<State>, fws: map<Config, set<nat>>, s: nat, list: seq<Action>,
                   sorted: seq<Action>)
    requires g.Valid() && g.StartOffRhs() && Canonical(g, states) && s < |states|
    requires Listed(g, states, fws, s, list) && multiset(sorted) == multiset(list) && Sorted(ActionOrder(g), sorted)
    ensures SortedWanted(g, states, fws, s, sorted) && Grouped(sorted) && |sorted| == |list|
  {
    SameElements(sorted, list);
    SameElements(list, sorted);
    SameLength(sorted, list);
    DistinctPermutation(list, sorted);
    WantedGrouped(g, states, fws, s, sorted);
  }

  lemma ResolvedRow(g: Grammar, states: seq<State>, fws: map<Config, set<nat>>, s: nat, list: seq<Action>,
                    row: seq<Action>)
    requires s < |states| && SortedWanted(g, states, fws, s, list) && Resolved(list, row) && Grouped(list)
    ensures ActionRow(g, states, fws, s, row)
  {
    hide Wanted, Grouped, EachGroupLives, Sorted;
    RowOrigins(list, row);
    forall i, j | 0 <= i < j < |row|
      ensures OriginOf(row[i]) != OriginOf(row[j])
    {
      assert OriginOf(row[i]) == list[i] && OriginOf(row[j]) == list[j];
    }
    forall a | a in row
      ensures Wanted(g, states, fws, s, OriginOf(a)) && a.typ != ERROR && a.typ != SHIFTREDUCE && a.typ != NOT_USED
    {
      var i :| 0 <= i < |row| && row[i] == a;
      assert OriginOf(row[i]) == list[i] && list[i] in list;
    }
    forall w | Wanted(g, states, fws, s, w)
      ensures exists a :: a in row && OriginOf(a) == w
    {
      var i :| 0 <= i < |list| && list[i] == w;
      assert OriginOf(row[i]) == w && row[i] in row;
    }
  }

  /** Resolving changes nothing but types, and those can be traced back. */
  lemma RowOrigins(list: seq<Action>, row: seq<Action>)
    requires Resolved(list, row) && Grouped(list)
    ensures |row| == |list|
    ensures forall i | 0 <= i < |row| ::
              OriginOf(row[i]) == list[i] && row[i].typ != ERROR && row[i].typ != SHIFTREDUCE && row[i].typ != NOT_USED
  {
  }

  /** The actions of all states; `ap` starts out with their shifts. */
  method FindActions(g: Grammar, states: seq<State>, fws: map<Config, set<nat>>, ap: array<seq<Action>>)
    returns (nconflict: nat, ok: bool)
    requires g.Valid() && g.StartOffRhs() && SmallActions(g) && Canonical(g, states) && Covers(states, fws)
    requires ap.Length == |states| && forall s | 0 <= s < |states| :: ap[s] == states[s].ap
    modifies ap
    ensures forall s | 0 <= s < |states| :: RowMade(g, states, fws, s, ap[s])
    ensures nconflict == SumConflicts(ap[..])
    ensures (forall s | 0 <= s < |states| :: !StateTie(g, states, fws, s)) ==> ok
    ensures if ok then forall s | 0 <= s < |states| :: Asserts(g, states, fws, s, true)
            else exists s | 0 <= s < |states| :: Asserts(g, states, fws, s, false)
  {
    hide *;
    for i := 0 to |states|
      invariant forall s | 0 <= s < i :: Listed(g, states, fws, s, ap[s])
    {
      ap[i] := ListActions(g, states, fws, i);
    }
    nconflict, ok := 0, true;
    NoConflictsIn();
    for i := 0 to |states|
      invariant forall s | 0 <= s < i :: RowMade(g, states, fws, s, ap[s])
      invariant forall s | i <= s < |states| :: Listed(g, states, fws, s, ap[s])
      invariant nconflict == SumConflicts(ap[..i])
      invariant (forall s | 0 <= s < i :: !StateTie(g, states, fws, s)) ==> ok
      invariant if ok then forall s | 0 <= s < i :: Asserts(g, states, fws, s, true)
                else exists s | 0 <= s < i :: Asserts(g, states, fws, s, false)
    {
      var row, n, fine := ResolveState(g, states, fws, i, ap[i]);
      RowIsMade(g, states, fws, i, row);
      ghost var before := ap[..i];
      ap[i] := row;
      assert ap[..i + 1] == before + [row];
      OneMoreRow(before, row);
      nconflict, ok := nconflict + n, ok && fine;
    }
    assert ap[..|states|] == ap[..];
  }

  /** The finished row of state s; it leaves one live action on every lookahead unless the state has a tie. */
  ghost predicate RowMade(g: Grammar, states: seq<State>, fws: map<Config, set<nat>>, s: nat, row: seq<Action>)
    requires s < |states|
  {
    && ResolvedFrom(g, states, fws, s, row) && |row| < Pow2(LISTSIZE)
    && (ActionRow(g, states, fws, s, row) <==> !StateTie(g, states, fws, s))
  }

  lemma RowIsMade(g: Grammar, states: seq<State>, fws: map<Config, set<nat>>, s: nat, row: seq<Action>)
    requires s < |states| && ResolvedFrom(g, states, fws, s, row) && |row| < Pow2(LISTSIZE)
    requires ActionRow(g, states, fws, s, row) <==> !StateTie(g, states, fws, s)
    ensures RowMade(g, states, fws, s, row)
  {
  }

  lemma NoConflictsIn()
    ensures SumConflicts([]) == 0
  {
  }

  lemma OneMoreRow(rows: seq<seq<Action>>, row: seq<Action>)
    ensures SumConflicts(rows + [row]) == SumConflicts(rows) + CountConflicts(row)
  {
    assert (rows + [row])[..|rows|] == rows;
  }
}
