/** Who wins a conflict: the outcome of `resolve_conflict` over all pairs, told by the precedences alone. */
module Precedences {
  import opened Grammars
  import opened Items
  import opened Actions
  import opened Collections
  import opened ConfigLists
  import opened MSort
  import opened Conflicts

  // ---------------------------------------------------------------- the rules of precedence

  /** The precedence of a shift is that of its token, the precedence of a reduction that of its rule's
      precedence symbol; negative if there is none. */
  ghost function Rank(g: Grammar, a: Action): int {
    match a.typ
    case SHIFT => if a.sp < |g.symbols| then g.symbols[a.sp].prec else -1
    case REDUCE =>
      if a.x < |g.rules| && 0 <= g.rules[a.x].precsym < |g.symbols| then g.symbols[g.rules[a.x].precsym].prec else -1
    case _ => -1
  }

  /** The rule of a comes before that of b in the grammar file. */
  ghost predicate EarlierRule(g: Grammar, a: Action, b: Action) {
    a.x < |g.rules| && b.x < |g.rules| && g.rules[a.x].index < g.rules[b.x].index
  }

  /** The reduction takes precedence over the shift: it has a higher one, or an equal one and the token
      does not associate to the right. */
  ghost predicate Overrules(g: Grammar, r: Action, s: Action) {
    && 0 <= Rank(g, s) <= Rank(g, r)
    && (Rank(g, s) == Rank(g, r) ==> s.sp < |g.symbols| && g.symbols[s.sp].assoc != RIGHT)
  }

  /** What becomes of the reduction b where a is taken: a conflict if precedence does not settle it. */
  ghost function LoserMark(g: Grammar, a: Action, b: Action): ActionType {
    if a.typ == SHIFT then
      if Rank(g, a) < 0 || Rank(g, b) < 0 then SRCONFLICT else RD_RESOLVED
    else
      if Rank(g, a) < 0 || Rank(g, b) < 0 || Rank(g, a) == Rank(g, b) then RRCONFLICT else RD_RESOLVED
  }

  /** `resolve_conflict` on two reductions, the one by the earlier rule first: the higher precedence wins,
      else the earlier rule, and then the other is a conflict. */
  lemma HigherReductionWins(g: Grammar, apx: Action, apy: Action)
    requires apx.typ == apy.typ == REDUCE
    ensures 0 <= Rank(g, apx) < Rank(g, apy) ==> ResolveConflict(g, apx, apy) == (RD_RESOLVED, REDUCE, 0)
    ensures 0 <= Rank(g, apy) < Rank(g, apx) ==> ResolveConflict(g, apx, apy) == (REDUCE, RD_RESOLVED, 0)
    ensures Rank(g, apx) < 0 || Rank(g, apy) < 0 || Rank(g, apx) == Rank(g, apy) ==>
              ResolveConflict(g, apx, apy) == (REDUCE, RRCONFLICT, 1)
  {
  }

  /** On a shift and a reduction: the higher precedence wins, associativity breaks a tie, and without
      precedences the shift is taken and the reduction is a conflict. */
  lemma ShiftOrReduction(g: Grammar, apx: Action, apy: Action)
    requires apx.typ == SHIFT && apy.typ == REDUCE
    ensures Rank(g, apx) < 0 || Rank(g, apy) < 0 ==> ResolveConflict(g, apx, apy) == (SHIFT, SRCONFLICT, 1)
    ensures 0 <= Rank(g, apy) < Rank(g, apx) ==> ResolveConflict(g, apx, apy) == (SHIFT, RD_RESOLVED, 0)
    ensures 0 <= Rank(g, apx) < Rank(g, apy) ==> ResolveConflict(g, apx, apy) == (SH_RESOLVED, REDUCE, 0)
    ensures 0 <= Rank(g, apx) == Rank(g, apy) ==>
              ResolveConflict(g, apx, apy) ==
              match g.symbols[apx.sp].assoc
              case RIGHT => (SHIFT, RD_RESOLVED, 0)
              case LEFT => (SH_RESOLVED, REDUCE, 0)
              case _ => (ERROR, REDUCE, 0)
  {
  }

  // ---------------------------------------------------------------- the action taken on a lookahead

  /** All other actions of w on its lookahead are reductions by later rules. */
  ghost predicate Heads(g: Grammar, w: iset<Action>, a: Action) {
    a in w && forall b | b in w && b.sp == a.sp && b != a :: b.typ == REDUCE && EarlierRule(g, a, b)
  }

  ghost predicate Overruled(g: Grammar, w: iset<Action>, s: Action) {
    exists r :: r in w && r.typ == REDUCE && r.sp == s.sp && Overrules(g, r, s)
  }

  /** No reduction on that lookahead has a higher precedence, and none by an earlier rule has the same. */
  ghost predicate Highest(g: Grammar, w: iset<Action>, a: Action) {
    forall b | b in w && b.typ == REDUCE && b.sp == a.sp && b != a ::
      Rank(g, b) < Rank(g, a) || (Rank(g, b) == Rank(g, a) && EarlierRule(g, a, b))
  }

  /** The action of w that is to be taken on its lookahead.  A shift is, unless some reduction takes
      precedence over it.  Otherwise the reduction by the first rule is if that rule has no precedence,
      and else the first one of the highest precedence. */
  ghost predicate Taken(g: Grammar, w: iset<Action>, a: Action) {
    a in w
    && match a.typ
       case SHIFT => !Overruled(g, w, a)
       case REDUCE =>
         if Rank(g, a) < 0 then Heads(g, w, a)
         else
           && Highest(g, w, a)
           && (forall s | s in w && s.typ == SHIFT && s.sp == a.sp :: Overruled(g, w, s))
           && (forall b | b in w && b.typ == REDUCE && b.sp == a.sp && Rank(g, b) < 0 :: !Heads(g, w, b))
       case _ => true
  }

  /** The actions on the lookahead of the reduction a that it is compared with when it comes up. */
  ghost function Before(g: Grammar, w: iset<Action>, a: Action): iset<Action> {
    iset b | b in w && b.sp == a.sp && (b.typ == SHIFT || EarlierRule(g, b, a))
  }

  /** What becomes of a shift that the reduction r takes precedence over: an error if it does so on a tie. */
  ghost function ShiftMark(g: Grammar, s: Action, r: Action): ActionType {
    if Rank(g, s) == Rank(g, r) && !(s.sp < |g.symbols| && g.symbols[s.sp].assoc == LEFT) then ERROR else SH_RESOLVED
  }

  /** r is the first reduction to take precedence over s. */
  ghost predicate FirstToOverrule(g: Grammar, w: iset<Action>, r: Action, s: Action) {
    && r in w && r.typ == REDUCE && r.sp == s.sp && Overrules(g, r, s)
    && forall b | b in w && b.typ == REDUCE && b.sp == s.sp && Overrules(g, b, s) && b != r :: EarlierRule(g, r, b)
  }

  /** The type that the action a of w ends up with: its own if it is taken.  A reduction that is not was
      compared with what is taken among the actions before it, if there are any, and if it was taken
      itself at that point, it was resolved later. */
  ghost predicate Fate(g: Grammar, w: iset<Action>, a: Action, t: ActionType) {
    if Taken(g, w, a) then t == a.typ
    else if a.typ == SHIFT then exists r :: FirstToOverrule(g, w, r, a) && t == ShiftMark(g, a, r)
    else if exists c :: Taken(g, Before(g, w, a), c) then
      exists c :: Taken(g, Before(g, w, a), c) && t == LoserMark(g, c, a)
    else t == RD_RESOLVED
  }

  // ---------------------------------------------------------------- one group of the list

  /** The list of a state: one shift at most on a lookahead, then reductions by ever later rules. */
  ghost predicate Ordered(g: Grammar, list: seq<Action>) {
    && Grouped(list)
    && forall i, j | 0 <= i < j < |list| && list[i].sp == list[j].sp ::
         && list[j].typ == REDUCE
         && (list[i].typ == SHIFT || (list[i].typ == REDUCE && EarlierRule(g, list[i], list[j])))
  }

  /** From l up to f all actions are on the same lookahead, of which l is the first. */
  ghost predicate Span(list: seq<Action>, l: nat, f: nat) {
    && l < f <= |list|
    && (forall i | l <= i < f :: list[i].sp == list[l].sp)
    && (l > 0 ==> list[l - 1].sp != list[l].sp)
  }

  /** Among the positions from l up to f, c is the one taken. */
  ghost predicate Leader(g: Grammar, list: seq<Action>, l: nat, f: nat, c: nat)
    requires f <= |list|
  {
    && l <= c < f
    && match list[c].typ
       case SHIFT => c == l && forall j | l < j < f :: !Overrules(g, list[j], list[l])
       case REDUCE =>
         if Rank(g, list[c]) < 0 then c == l
         else
           && (forall j | l <= j < f && list[j].typ == REDUCE && j != c ::
                 Rank(g, list[j]) < Rank(g, list[c]) || (Rank(g, list[j]) == Rank(g, list[c]) && c < j))
           && (if list[l].typ == SHIFT then Overrules(g, list[c], list[l]) else Rank(g, list[l]) >= 0)
       case _ => c == l && f == l + 1
  }

  /** The type of the action at j once it has lost. */
  ghost predicate LostAs(g: Grammar, list: seq<Action>, l: nat, f: nat, j: nat, t: ActionType)
    requires f <= |list|
  {
    && l <= j < f
    && match list[j].typ
       case SHIFT =>
         && j == l
         && exists r ::
              && l < r < f && Overrules(g, list[r], list[l]) && t == ShiftMark(g, list[l], list[r])
              && forall i | l < i < r :: !Overrules(g, list[i], list[l])
       case REDUCE =>
         if j == l then t == RD_RESOLVED
         else exists c: nat :: Leader(g, list, l, j, c) && t == LoserMark(g, list[c], list[j])
       case _ => false
  }

  ghost predicate Out(g: Grammar, list: seq<Action>, res: seq<Action>, l: nat, f: nat, j: nat)
    requires f <= |list| == |res| && j < |list|
  {
    res[j] == list[j].(typ := res[j].typ) && LostAs(g, list, l, f, j, res[j].typ)
  }

  /** The positions from l up to f have been compared: c is still in, the others are out, and nothing
      happened behind them. */
  ghost predicate Contest(g: Grammar, list: seq<Action>, res: seq<Action>, l: nat, f: nat, c: nat) {
    && Span(list, l, f) && |res| == |list|
    && Leader(g, list, l, f, c) && res[c] == list[c]
    && (list[c].typ == REDUCE ==> LostAs(g, list, l, f, c, RD_RESOLVED))
    && (forall j | l <= j < f && j != c :: Out(g, list, res, l, f, j))
    && (forall j | f <= j < |list| :: res[j] == list[j])
  }

  /** The action b takes the place of a. */
  ghost predicate Dethrones(g: Grammar, a: Action, b: Action) {
    if a.typ == SHIFT then Overrules(g, b, a) else 0 <= Rank(g, a) < Rank(g, b)
  }

  lemma PairMarks(g: Grammar, a: Action, b: Action)
    requires a.typ in {SHIFT, REDUCE} && b.typ == REDUCE
    ensures var r := ResolveConflict(g, a, b);
            if Dethrones(g, a, b) then r.0 == (if a.typ == SHIFT then ShiftMark(g, a, b) else RD_RESOLVED) && r.1 == REDUCE
            else r.0 == a.typ && r.1 == LoserMark(g, a, b)
    ensures Dethrones(g, a, b) ==> LoserMark(g, a, b) == RD_RESOLVED
  {
  }

  lemma LeaderStep(g: Grammar, list: seq<Action>, l: nat, f: nat, c: nat)
    requires Ordered(g, list) && Span(list, l, f) && f < |list| && list[f].sp == list[l].sp && Leader(g, list, l, f, c)
    ensures list[c].typ in {SHIFT, REDUCE} && list[f].typ == REDUCE
    ensures Leader(g, list, l, f + 1, if Dethrones(g, list[c], list[f]) then f else c)
  {
    assert list[l].sp == list[f].sp;
  }

  lemma LostLater(g: Grammar, list: seq<Action>, l: nat, f: nat, j: nat, t: ActionType)
    requires f < |list| && LostAs(g, list, l, f, j, t)
    ensures LostAs(g, list, l, f + 1, j, t)
  {
  }

  /** The comparison of the action that is still in with the next. */
  lemma ContestStep(g: Grammar, list: seq<Action>, res: seq<Action>, l: nat, f: nat, c: nat) returns (c': nat)
    requires Ordered(g, list) && Contest(g, list, res, l, f, c) && f < |list| && list[f].sp == list[l].sp
    ensures Contest(g, list, WithTypes(res, c, f, ResolveConflict(g, res[c], res[f])), l, f + 1, c')
    ensures c' in {c, f}
  {
    hide LostAs, Ordered, Out, Overrules, LoserMark;
    LeaderStep(g, list, l, f, c);
    PairMarks(g, list[c], list[f]);
    StepMarks(g, list, l, f, c);
    c' := if Dethrones(g, list[c], list[f]) then f else c;
    var r := ResolveConflict(g, list[c], list[f]);
    hide ResolveConflict, Leader, Dethrones, ShiftMark;
    MarksGiven(g, list, res, l, f, c, c', r);
  }

  lemma MarksGiven(g: Grammar, list: seq<Action>, res: seq<Action>, l: nat, f: nat, c: nat, c': nat,
                   r: (ActionType, ActionType, nat))
    requires Contest(g, list, res, l, f, c) && c < f < |list| && list[f].sp == list[l].sp && c' in {c, f}
    requires Leader(g, list, l, f + 1, c')
    requires if c' == c then r.0 == list[c].typ && LostAs(g, list, l, f + 1, f, r.1)
             else r.1 == list[f].typ && LostAs(g, list, l, f + 1, c, r.0) && LostAs(g, list, l, f + 1, f, RD_RESOLVED)
    ensures Contest(g, list, WithTypes(res, c, f, r), l, f + 1, c')
  {
    hide Leader, LostAs;
    var res', next := WithTypes(res, c, f, r), f + 1;
    forall j | l <= j < next && j != c'
      ensures Out(g, list, res', l, next, j)
    {
      if j < f && j != c { OutLater(g, list, res, res', l, f, j); }
    }
    if c' == c && list[c].typ == REDUCE { LostLater(g, list, l, f, c, RD_RESOLVED); }
  }

  lemma OutLater(g: Grammar, list: seq<Action>, res: seq<Action>, res': seq<Action>, l: nat, f: nat, j: nat)
    requires |res| == |res'| == |list| && j < f < |list| && Out(g, list, res, l, f, j) && res'[j] == res[j]
    ensures Out(g, list, res', l, f + 1, j)
  {
    LostLater(g, list, l, f, j, res[j].typ);
  }

  lemma StepMarks(g: Grammar, list: seq<Action>, l: nat, f: nat, c: nat)
    requires Ordered(g, list) && Span(list, l, f) && f < |list| && list[f].sp == list[l].sp && Leader(g, list, l, f, c)
    requires list[c].typ == REDUCE ==> LostAs(g, list, l, f, c, RD_RESOLVED)
    ensures LostAs(g, list, l, f + 1, f, LoserMark(g, list[c], list[f]))
    ensures Dethrones(g, list[c], list[f]) ==>
              LostAs(g, list, l, f + 1, c,
                     if list[c].typ == SHIFT then ShiftMark(g, list[c], list[f]) else RD_RESOLVED)
  {
    LeaderStep(g, list, l, f, c);
    if list[c].typ == REDUCE { LostLater(g, list, l, f, c, RD_RESOLVED); }
  }

  // ---------------------------------------------------------------- all pairs

  /** The group from l up to f is complete. */
  ghost predicate Whole(list: seq<Action>, l: nat, f: nat) {
    Span(list, l, f) && (f < |list| ==> list[f].sp != list[l].sp)
  }

  /** Position i has its final type. */
  ghost predicate Final(g: Grammar, list: seq<Action>, res: seq<Action>, i: nat)
    requires i < |list| == |res|
  {
    exists l, f, c :: FinalIn(g, list, res, i, l, f, c)
  }

  ghost predicate FinalIn(g: Grammar, list: seq<Action>, res: seq<Action>, i: nat, l: nat, f: nat, c: nat)
    requires i < |list| == |res|
  {
    && Whole(list, l, f) && l <= i < f && Leader(g, list, l, f, c)
    && (if i == c then res[i] == list[i] else Out(g, list, res, l, f, i))
  }

  ghost predicate Finished(g: Grammar, list: seq<Action>, res: seq<Action>, l: nat) {
    l <= |list| == |res| && forall i | 0 <= i < l :: Final(g, list, res, i)
  }

  lemma StillFinished(g: Grammar, list: seq<Action>, res: seq<Action>, res': seq<Action>, l: nat)
    requires Finished(g, list, res, l) && |res'| == |res| && forall i | 0 <= i < l :: res'[i] == res[i]
    ensures Finished(g, list, res', l)
  {
    forall i | 0 <= i < l
      ensures Final(g, list, res', i)
    {
      assert Final(g, list, res, i);
      var l0, f0, c0 :| FinalIn(g, list, res, i, l0, f0, c0);
      assert FinalIn(g, list, res', i, l0, f0, c0);
    }
  }

  lemma GroupFinished(g: Grammar, list: seq<Action>, res: seq<Action>, l: nat, f: nat, c: nat)
    requires Finished(g, list, res, l) && Contest(g, list, res, l, f, c) && Whole(list, l, f)
    ensures Finished(g, list, res, f)
  {
    forall i | 0 <= i < f
      ensures Final(g, list, res, i)
    {
      if i >= l { assert FinalIn(g, list, res, i, l, f, c); }
    }
  }

  lemma NewGroup(g: Grammar, list: seq<Action>, res: seq<Action>, l: nat, f: nat, c: nat)
    requires Contest(g, list, res, l, f, c) && Whole(list, l, f) && f < |list| && Ordered(g, list)
    ensures Contest(g, list, res, f, f + 1, f)
  {
    GroupStart(g, list, res, f);
  }

  lemma GroupStart(g: Grammar, list: seq<Action>, res: seq<Action>, f: nat)
    requires |res| == |list| && f < |list| && (f > 0 ==> list[f - 1].sp != list[f].sp)
    requires forall j | f <= j < |list| :: res[j] == list[j]
    ensures Contest(g, list, res, f, f + 1, f)
  {
  }

  /** Comparing an action that is out with another changes nothing. */
  lemma NothingChanges(g: Grammar, list: seq<Action>, res: seq<Action>, l: nat, f: nat, c: nat, k: nat, m: nat)
    requires Contest(g, list, res, l, f, c) && l <= k < f && k != c && k < m < |list|
    ensures WithTypes(res, k, m, ResolveConflict(g, res[k], res[m])) == res
  {
    assert Out(g, list, res, l, f, k);
    assert res[k].typ !in {SHIFT, REDUCE};
  }

  /** Where the loops are in the group from l on: c meets the actions behind it when k is c. */
  ghost predicate At_(list: seq<Action>, l: nat, f: nat, c: nat, k: nat, m: nat) {
    && Span(list, l, f) && l <= k < m <= |list| && list[k].sp == list[m - 1].sp == list[l].sp
    && (k < c ==> f == c + 1)
    && (k == c ==> f == m)
    && (k > c ==> Whole(list, l, f))
  }

  lemma ContestSizes(g: Grammar, list: seq<Action>, res: seq<Action>, l: nat, f: nat, c: nat)
    requires Contest(g, list, res, l, f, c)
    ensures Span(list, l, f) && |res| == |list| && l <= c < f
    ensures forall i | l <= i < |list| :: res[i].sp == list[i].sp
  {
    forall i | l <= i < f && i != c
      ensures res[i].sp == list[i].sp
    {
      assert Out(g, list, res, l, f, i);
    }
  }

  /** Behind the group no action is on its lookahead. */
  lemma GroupIsOver(g: Grammar, list: seq<Action>, l: nat, f: nat, m: nat)
    requires Ordered(g, list) && Span(list, l, f) && l < m < |list| && list[m].sp != list[l].sp
    ensures f <= m && forall i | m <= i < |list| :: list[i].sp != list[l].sp
  {
    assert list[l].sp <= list[m].sp;
  }

  lemma AtSizes(list: seq<Action>, l: nat, f: nat, c: nat, k: nat, m: nat)
    requires At_(list, l, f, c, k, m)
    ensures Span(list, l, f) && l <= k < m <= |list| && list[k].sp == list[l].sp
  {
  }

  /** Where the loops go next. */
  lemma AtNext(g: Grammar, list: seq<Action>, l: nat, f: nat, c: nat, k: nat, m: nat)
    requires Ordered(g, list) && At_(list, l, f, c, k, m) && l <= c < f
    ensures m < |list| && list[m].sp == list[k].sp ==>
              && (k == c ==> f == m && At_(list, l, f + 1, c, k, m + 1) && At_(list, l, f + 1, m, k, m + 1))
              && (k != c ==> k < f && At_(list, l, f, c, k, m + 1))
    ensures (m < |list| ==> list[m].sp != list[k].sp) ==>
              if k + 1 < |list| && list[k + 1].sp == list[l].sp then At_(list, l, f, c, k + 1, k + 2)
              else Whole(list, l, f) && f == k + 1 && (f < |list| ==> At_(list, f, f + 1, f, f, f + 1))
  {
    if m < |list| && list[m].sp != list[k].sp { GroupIsOver(g, list, l, f, m); }
    if k + 1 < |list| && list[k + 1].sp != list[l].sp { GroupIsOver(g, list, l, f, k + 1); }
  }

  lemma {:induction false} PairsFinish(g: Grammar, list: seq<Action>, res: seq<Action>, k: nat, m: nat, l: nat, f: nat,
                                       c: nat)
    requires Ordered(g, list) && Finished(g, list, res, l) && Contest(g, list, res, l, f, c) && At_(list, l, f, c, k, m)
    ensures Finished(g, list, ResolvePairs(g, res, k, m), |list|)
    decreases |list| - k, |list| - m
  {
    hide Ordered, Finished, Contest, ResolveConflict, Grouped, At_;
    AtSizes(list, l, f, c, k, m);
    ContestSizes(g, list, res, l, f, c);
    AtNext(g, list, l, f, c, k, m);
    if m < |list| && list[m].sp == list[k].sp {
      var res' := WithTypes(res, k, m, ResolveConflict(g, res[k], res[m]));
      if k == c {
        var c' := ContestStep(g, list, res, l, f, c);
        StillFinished(g, list, res, res', l);
        PairsFinish(g, list, res', k, m + 1, l, f + 1, c');
      } else {
        NothingChanges(g, list, res, l, f, c, k, m);
        PairsFinish(g, list, res, k, m + 1, l, f, c);
      }
    } else if k + 1 < |list| && list[k + 1].sp == list[l].sp {
      PairsFinish(g, list, res, k + 1, k + 2, l, f, c);
    } else {
      GroupFinished(g, list, res, l, f, c);
      if k + 1 < |list| {
        NewGroup(g, list, res, l, f, c);
        PairsFinish(g, list, res, k + 1, k + 2, f, f + 1, f);
      }
    }
  }

  lemma ListFinishes(g: Grammar, list: seq<Action>)
    requires Ordered(g, list)
    ensures Finished(g, list, ResolvePairs(g, list, 0, 1), |list|)
  {
    hide Ordered, Contest;
    if list != [] {
      GroupStart(g, list, list, 0);
      PairsFinish(g, list, list, 0, 1, 0, 1, 0);
    }
  }

  // ---------------------------------------------------------------- the last assertion

  /** The shift at l ties with the reduction at m, and another action on the lookahead comes behind. */
  ghost predicate AbortsAt(g: Grammar, list: seq<Action>, l: nat, m: nat) {
    TieAt(g, list, l, m) && m + 1 < |list| && list[m + 1].sp == list[m].sp
  }

  ghost predicate NoneFrom(g: Grammar, list: seq<Action>, x: nat) {
    forall l: nat, m: nat | l >= x :: !AbortsAt(g, list, l, m)
  }

  lemma TieIsOverruling(g: Grammar, s: Action, r: Action)
    requires s.typ == SHIFT && r.typ == REDUCE
    ensures Loses(g, s, r) <==> Overrules(g, r, s)
    ensures Tie(g, s, r) <==> Overrules(g, r, s) && ShiftMark(g, s, r) == ERROR
  {
  }

  /** As long as k is the shift at l, c is the first reduction to overrule it, and if on a tie, it is the last
      one that has been looked at. */
  ghost predicate JustOut(g: Grammar, list: seq<Action>, res: seq<Action>, k: nat, m: nat, l: nat, f: nat, c: nat) {
    k == l < c < |list| == |res| && list[l].typ == SHIFT ==>
      && Overrules(g, list[c], list[l]) && res[l].typ == ShiftMark(g, list[l], list[c])
      && (forall i | l < i < c :: !Overrules(g, list[i], list[l]))
      && (res[l].typ == ERROR ==> m == f)
  }

  lemma JustOutNext(g: Grammar, list: seq<Action>, res: seq<Action>, l: nat, f: nat, c: nat, c': nat)
    requires Ordered(g, list) && Contest(g, list, res, l, f, c) && f < |list| && list[f].sp == list[l].sp
    requires var res' := WithTypes(res, c, f, ResolveConflict(g, res[c], res[f]));
             Contest(g, list, res', l, f + 1, c') && c' in {c, f}
    ensures JustOut(g, list, WithTypes(res, c, f, ResolveConflict(g, res[c], res[f])), c, f + 1, l, f + 1, c')
    ensures PairOk(res[c], res[f])
  {
    LeaderStep(g, list, l, f, c);
    PairMarks(g, list[c], list[f]);
    hide LostAs, Out, LoserMark, Rank, ResolveConflict, Ordered;
  }

  /** No tie of the shift at l is followed by another action. */
  lemma NoneAborts(g: Grammar, list: seq<Action>, res: seq<Action>, m: nat, l: nat, f: nat, c: nat, m': nat)
    requires Ordered(g, list) && Contest(g, list, res, l, f, c) && At_(list, l, f, c, l, m)
    requires JustOut(g, list, res, l, m, l, f, c) && (m < |list| ==> list[m].sp != list[l].sp)
    ensures !AbortsAt(g, list, l, m')
  {
    hide LostAs, Out, LoserMark, Rank, Overrules;
    if TieAt(g, list, l, m') {
      TieIsOverruling(g, list[l], list[m']);
      if m < |list| { GroupIsOver(g, list, l, f, m); }
      if l < c < m' { TieIsOverruling(g, list[l], list[c]); }
    }
  }

  /** An error that meets another action aborts. */
  lemma OutPair(g: Grammar, list: seq<Action>, res: seq<Action>, k: nat, m: nat, l: nat, f: nat, c: nat)
    requires Ordered(g, list) && Contest(g, list, res, l, f, c) && At_(list, l, f, c, k, m) && k != c && k < f
    requires JustOut(g, list, res, k, m, l, f, c) && m < |list| && list[m].sp == list[k].sp
    ensures PairOk(res[k], res[m]) || (k == l && exists m': nat :: AbortsAt(g, list, l, m'))
    ensures PairOk(res[k], res[m]) ==> JustOut(g, list, res, k, m + 1, l, f, c)
    ensures !PairOk(res[k], res[m]) ==> k == l
  {
    hide Leader, Rank, Overrules, Ordered, Grouped;
    ContestSizes(g, list, res, l, f, c);
    assert Out(g, list, res, l, f, k);
    if res[k].typ == ERROR { TieAborts(g, list, res, m, l, f, c); }
  }

  lemma TieAborts(g: Grammar, list: seq<Action>, res: seq<Action>, m: nat, l: nat, f: nat, c: nat)
    requires Ordered(g, list) && Contest(g, list, res, l, f, c) && At_(list, l, f, c, l, m) && l < c
    requires JustOut(g, list, res, l, m, l, f, c) && m < |list| && list[m].sp == list[l].sp
    requires list[l].typ == SHIFT && res[l].typ == ERROR
    ensures AbortsAt(g, list, l, c) && !PairOk(res[l], res[m])
  {
    hide LostAs, Out, LoserMark, Rank, Overrules, Leader;
    assert list[l].sp == list[c].sp;
    TieIsOverruling(g, list[l], list[c]);
    forall j | l < j < c && list[j].typ == REDUCE
      ensures !Loses(g, list[l], list[j])
    {
      TieIsOverruling(g, list[l], list[j]);
    }
    if l > 0 { assert list[l - 1].sp <= list[l].sp; }
  }

  /** Where a group ends, the next one is all that matters. */
  lemma NextGroup(g: Grammar, list: seq<Action>, l: nat, f: nat)
    requires Whole(list, l, f)
    ensures NoneFrom(g, list, l + 1) <==> NoneFrom(g, list, f)
  {
    forall l': nat, m: nat | l < l' < f
      ensures !AbortsAt(g, list, l', m)
    {
      assert list[l'].sp == list[l].sp;
    }
  }

  /** The assertion holds for all pairs from (k, m) on if and only if nothing aborts from there on. */
  lemma {:induction false} PairsOkIff(g: Grammar, list: seq<Action>, res: seq<Action>, k: nat, m: nat, l: nat, f: nat,
                                      c: nat)
    requires Ordered(g, list) && Contest(g, list, res, l, f, c) && At_(list, l, f, c, k, m)
    requires JustOut(g, list, res, k, m, l, f, c)
    ensures PairsOk(g, res, k, m) <==> NoneFrom(g, list, if k == l then l else l + 1)
    decreases |list| - k, |list| - m
  {
    hide Ordered, Contest, ResolveConflict, Grouped, At_, PairOk, AbortsAt;
    ContestSizes(g, list, res, l, f, c);
    AtSizes(list, l, f, c, k, m);
    AtNext(g, list, l, f, c, k, m);
    if m < |list| && list[m].sp == list[k].sp {
      var res' := WithTypes(res, k, m, ResolveConflict(g, res[k], res[m]));
      if k == c {
        var c' := ContestStep(g, list, res, l, f, c);
        JustOutNext(g, list, res, l, f, c, c');
        PairsOkIff(g, list, res', k, m + 1, l, f + 1, c');
      } else {
        NothingChanges(g, list, res, l, f, c, k, m);
        OutPair(g, list, res, k, m, l, f, c);
        if PairOk(res[k], res[m]) { PairsOkIff(g, list, res, k, m + 1, l, f, c); }
      }
    } else {
      if k == l {
        forall m': nat
          ensures !AbortsAt(g, list, l, m')
        {
          NoneAborts(g, list, res, m, l, f, c, m');
        }
      }
      assert NoneFrom(g, list, if k == l then l else l + 1) <==> NoneFrom(g, list, l + 1);
      if k + 1 < |list| && list[k + 1].sp == list[l].sp {
        PairsOkIff(g, list, res, k + 1, k + 2, l, f, c);
      } else {
        NextGroup(g, list, l, f);
        if k + 1 < |list| {
          NewGroup(g, list, res, l, f, c);
          PairsOkIff(g, list, res, k + 1, k + 2, f, f + 1, f);
        } else {
          NoneLater(g, list);
        }
      }
    }
  }

  lemma NoneLater(g: Grammar, list: seq<Action>)
    ensures NoneFrom(g, list, |list|)
  {
  }

  /** The last assertion of `resolve_conflict` fails if and only if a tie of a shift and a reduction, broken by
      %nonassoc, is followed by another reduction. */
  lemma AssertionFailsIff(g: Grammar, list: seq<Action>)
    requires Ordered(g, list)
    ensures !PairsOk(g, list, 0, 1) <==> exists l, m :: AbortsAt(g, list, l, m)
  {
    hide Ordered, Contest, AbortsAt;
    if list != [] {
      GroupStart(g, list, list, 0);
      PairsOkIff(g, list, list, 0, 1, 0, 1, 0);
    } else {
      NoneLater(g, list);
    }
  }

  /** The least such list: a shift and two reductions of the same precedence. */
  lemma NonassocAborts(g: Grammar, x: nat, q: nat, r: nat, r': nat)
    requires x < |g.symbols| && g.symbols[x].assoc == NONE && g.symbols[x].prec >= 0
    requires r < |g.rules| && r' < |g.rules| && g.rules[r].precsym == g.rules[r'].precsym == x
    requires g.rules[r].index < g.rules[r'].index
    ensures !PairsOk(g, [Action(x, SHIFT, q), Action(x, REDUCE, r), Action(x, REDUCE, r')], 0, 1)
  {
    var list := [Action(x, SHIFT, q), Action(x, REDUCE, r), Action(x, REDUCE, r')];
    assert Ordered(g, list);
    assert AbortsAt(g, list, 0, 1);
    AssertionFailsIff(g, list);
  }

  // ---------------------------------------------------------------- from positions to actions

  /** On the lookahead of l, the actions of w are those from l up to f. */
  ghost predicate Holds(list: seq<Action>, l: nat, f: nat, w: iset<Action>)
    requires l < f <= |list|
  {
    && (forall i | l <= i < f :: list[i] in w)
    && (forall a | a in w && a.sp == list[l].sp :: exists i :: l <= i < f && list[i] == a)
  }

  lemma LeaderIsTaken(g: Grammar, list: seq<Action>, l: nat, f: nat, w: iset<Action>, c: nat)
    requires Ordered(g, list) && Span(list, l, f) && Holds(list, l, f, w) && Leader(g, list, l, f, c)
    ensures Taken(g, w, list[c])
  {
    hide Rank, Grouped;
    match list[c].typ
    case SHIFT =>
      forall r | r in w && r.typ == REDUCE && r.sp == list[c].sp
        ensures !Overrules(g, r, list[c])
      {
        var i :| l <= i < f && list[i] == r;
      }
    case REDUCE =>
      if Rank(g, list[c]) >= 0 {
        HighestLeads(g, list, l, f, w, c);
      } else {
        assert Heads(g, w, list[c]);
      }
    case _ =>
  }

  lemma HighestLeads(g: Grammar, list: seq<Action>, l: nat, f: nat, w: iset<Action>, c: nat)
    requires Ordered(g, list) && Span(list, l, f) && Holds(list, l, f, w) && Leader(g, list, l, f, c)
    requires list[c].typ == REDUCE && Rank(g, list[c]) >= 0
    ensures Taken(g, w, list[c])
  {
    assert list[c] in w;
    LeaderOverrules(g, list, l, f, w, c);
    LeaderIsHighest(g, list, l, f, w, c);
  }

  lemma LeaderOverrules(g: Grammar, list: seq<Action>, l: nat, f: nat, w: iset<Action>, c: nat)
    requires Ordered(g, list) && Span(list, l, f) && Holds(list, l, f, w) && Leader(g, list, l, f, c)
    requires list[c].typ == REDUCE && Rank(g, list[c]) >= 0
    ensures forall s | s in w && s.typ == SHIFT && s.sp == list[c].sp :: Overruled(g, w, s)
    ensures forall b | b in w && b.typ == REDUCE && b.sp == list[c].sp && Rank(g, b) < 0 :: !Heads(g, w, b)
  {
    hide Rank, Grouped;
    forall s | s in w && s.typ == SHIFT && s.sp == list[c].sp
      ensures Overruled(g, w, s)
    {
      var i :| l <= i < f && list[i] == s;
      assert i == l;
      assert list[c] in w && Overrules(g, list[c], s);
    }
    forall b | b in w && b.typ == REDUCE && b.sp == list[c].sp && Rank(g, b) < 0
      ensures !Heads(g, w, b)
    {
      var i :| l <= i < f && list[i] == b;
      assert list[l] in w && list[l].sp == b.sp && i != l;
    }
  }

  lemma LeaderIsHighest(g: Grammar, list: seq<Action>, l: nat, f: nat, w: iset<Action>, c: nat)
    requires Ordered(g, list) && Span(list, l, f) && Holds(list, l, f, w) && Leader(g, list, l, f, c)
    requires list[c].typ == REDUCE && Rank(g, list[c]) >= 0
    ensures Highest(g, w, list[c])
  {
    hide Rank, Grouped, EarlierRule, Overrules;
    forall b | b in w && b.typ == REDUCE && b.sp == list[c].sp && b != list[c]
      ensures Rank(g, b) < Rank(g, list[c]) || (Rank(g, b) == Rank(g, list[c]) && EarlierRule(g, list[c], b))
    {
      var i :| l <= i < f && list[i] == b;
      if c < i { assert EarlierRule(g, list[c], list[i]); }
    }
  }

  /** No other action on the lookahead is. */
  lemma OneIsTaken(g: Grammar, list: seq<Action>, l: nat, f: nat, w: iset<Action>, c: nat, i: nat)
    requires Ordered(g, list) && Span(list, l, f) && Holds(list, l, f, w) && Leader(g, list, l, f, c)
    requires l <= i < f && i != c
    ensures !Taken(g, w, list[i]) && list[i] != list[c]
  {
    hide Rank, Grouped;
    assert list[l] in w && list[c] in w && list[i] in w;
    if list[c].typ == SHIFT {
      forall r | r in w && r.typ == REDUCE && r.sp == list[c].sp
        ensures !Overrules(g, r, list[c])
      {
        var j :| l <= j < f && list[j] == r;
      }
      assert !Overruled(g, w, list[c]);
    } else if list[i].typ == SHIFT {
      assert Overrules(g, list[c], list[i]);
    } else if Rank(g, list[c]) < 0 {
      assert Heads(g, w, list[c]);
    } else if Rank(g, list[i]) < 0 {
      assert i != l;
      assert list[l].sp == list[i].sp && list[l] != list[i];
      assert !Heads(g, w, list[i]);
    } else {
      assert list[i].sp == list[c].sp;
      assert if c < i then EarlierRule(g, list[c], list[i]) else EarlierRule(g, list[i], list[c]);
      assert !Highest(g, w, list[i]);
    }
  }

  lemma BeforeHolds(g: Grammar, list: seq<Action>, l: nat, f: nat, w: iset<Action>, j: nat)
    requires Ordered(g, list) && Span(list, l, f) && Holds(list, l, f, w) && l < j < f
    ensures Span(list, l, j) && Holds(list, l, j, Before(g, w, list[j]))
  {
    hide Grouped, Before;
    forall i | l <= i < j
      ensures list[i] in Before(g, w, list[j])
    {
      InBefore(g, list, l, f, w, i, j);
    }
    forall a | a in Before(g, w, list[j]) && a.sp == list[l].sp
      ensures exists i :: l <= i < j && list[i] == a
    {
      var i := FromBefore(g, list, l, f, w, j, a);
    }
  }

  lemma InBefore(g: Grammar, list: seq<Action>, l: nat, f: nat, w: iset<Action>, i: nat, j: nat)
    requires Ordered(g, list) && Span(list, l, f) && Holds(list, l, f, w) && l <= i < j < f
    ensures list[i] in Before(g, w, list[j])
  {
    assert list[i].sp == list[j].sp;
  }

  lemma FromBefore(g: Grammar, list: seq<Action>, l: nat, f: nat, w: iset<Action>, j: nat, a: Action) returns (i: nat)
    requires Ordered(g, list) && Span(list, l, f) && Holds(list, l, f, w) && l < j < f
    requires a in Before(g, w, list[j])
    ensures l <= i < j && list[i] == a
  {
    hide Grouped;
    assert a.sp == list[l].sp;
    i :| l <= i < f && list[i] == a;
  }

  lemma NothingBefore(g: Grammar, list: seq<Action>, l: nat, f: nat, w: iset<Action>)
    requires Ordered(g, list) && Span(list, l, f) && Holds(list, l, f, w) && list[l].typ == REDUCE
    ensures forall c :: !Taken(g, Before(g, w, list[l]), c)
  {
    hide Grouped;
    forall i | l <= i < f
      ensures list[i] !in Before(g, w, list[l])
    {
      assert i > l ==> list[i].sp == list[l].sp;
    }
    forall c | c in w && c.sp == list[l].sp
      ensures c !in Before(g, w, list[l])
    {
      var i :| l <= i < f && list[i] == c;
    }
  }

  lemma FateOfLoser(g: Grammar, list: seq<Action>, l: nat, f: nat, w: iset<Action>, j: nat, t: ActionType)
    requires Ordered(g, list) && Span(list, l, f) && Holds(list, l, f, w) && LostAs(g, list, l, f, j, t)
    requires !Taken(g, w, list[j])
    ensures Fate(g, w, list[j], t)
  {
    hide Grouped, Taken, Rank, Before, LoserMark, ShiftMark, Holds, Overrules;
    if list[j].typ == SHIFT {
      var r :| l < r < f && Overrules(g, list[r], list[l]) && t == ShiftMark(g, list[l], list[r])
          && forall i | l < i < r :: !Overrules(g, list[i], list[l]);
      FirstOverrules(g, list, l, f, w, r);
    } else if j == l {
      NothingBefore(g, list, l, f, w);
    } else {
      var c: nat :| Leader(g, list, l, j, c) && t == LoserMark(g, list[c], list[j]);
      BeforeHolds(g, list, l, f, w, j);
      LeaderIsTaken(g, list, l, j, Before(g, w, list[j]), c);
    }
  }

  lemma FirstOverrules(g: Grammar, list: seq<Action>, l: nat, f: nat, w: iset<Action>, r: nat)
    requires Ordered(g, list) && Span(list, l, f) && Holds(list, l, f, w) && list[l].typ == SHIFT
    requires l < r < f && Overrules(g, list[r], list[l]) && forall i | l < i < r :: !Overrules(g, list[i], list[l])
    ensures FirstToOverrule(g, w, list[r], list[l])
  {
    hide Grouped, Overrules;
    forall b | b in w && b.typ == REDUCE && b.sp == list[l].sp && Overrules(g, b, list[l]) && b != list[r]
      ensures EarlierRule(g, list[r], b)
    {
      var i :| l <= i < f && list[i] == b;
      assert i > r;
    }
  }

  // ---------------------------------------------------------------- the rows

  /** The row is the list with the types that precedence gives. */
  ghost predicate Fated(g: Grammar, w: iset<Action>, list: seq<Action>, row: seq<Action>) {
    && |row| == |list|
    && forall i | 0 <= i < |list| :: row[i] == list[i].(typ := row[i].typ) && Fate(g, w, list[i], row[i].typ)
  }

  /** The pass over all pairs gives every action the type that precedence demands. */
  lemma PairsAreFated(g: Grammar, list: seq<Action>)
    requires Ordered(g, list)
    ensures Fated(g, (iset a | a in list), list, ResolvePairs(g, list, 0, 1))
  {
    var w, row := (iset a | a in list), ResolvePairs(g, list, 0, 1);
    ListFinishes(g, list);
    hide Ordered, Grouped, Leader, LostAs, Fate, Taken;
    forall i | 0 <= i < |list|
      ensures row[i] == list[i].(typ := row[i].typ) && Fate(g, w, list[i], row[i].typ)
    {
      assert Final(g, list, row, i);
      var l, f, c :| FinalIn(g, list, row, i, l, f, c);
      FinalIsFated(g, list, row, i, l, f, c);
    }
  }

  lemma FinalIsFated(g: Grammar, list: seq<Action>, row: seq<Action>, i: nat, l: nat, f: nat, c: nat)
    requires Ordered(g, list) && i < |list| == |row| && FinalIn(g, list, row, i, l, f, c)
    ensures row[i] == list[i].(typ := row[i].typ) && Fate(g, (iset a | a in list), list[i], row[i].typ)
  {
    var w := iset a | a in list;
    WholeHolds(g, list, l, f);
    hide Ordered, Grouped, Leader, LostAs, Taken, Holds;
    LeaderIsTaken(g, list, l, f, w, c);
    if i != c {
      OneIsTaken(g, list, l, f, w, c, i);
      FateOfLoser(g, list, l, f, w, i, row[i].typ);
    }
  }

  lemma WholeHolds(g: Grammar, list: seq<Action>, l: nat, f: nat)
    requires Ordered(g, list) && Whole(list, l, f)
    ensures Holds(list, l, f, iset a | a in list)
  {
    forall a | a in list && a.sp == list[l].sp
      ensures exists i :: l <= i < f && list[i] == a
    {
      var i :| 0 <= i < |list| && list[i] == a;
      if l > 0 { assert list[l - 1].sp <= list[l].sp; }
      if f < |list| { assert list[l].sp <= list[f].sp; }
    }
  }

  ghost function Wants(g: Grammar, states: seq<State>, fws: map<Config, set<nat>>, s: nat): iset<Action>
    requires s < |states|
  {
    iset a | Wanted(g, states, fws, s, a)
  }

  lemma WantedOrdered(g: Grammar, states: seq<State>, fws: map<Config, set<nat>>, s: nat, list: seq<Action>)
    requires g.Valid() && g.StartOffRhs() && Canonical(g, states) && s < |states|
    requires SortedWanted(g, states, fws, s, list)
    ensures Ordered(g, list)
  {
    hide Wanted, Canonical, Grammar.Valid;
    WantedGrouped(g, states, fws, s, list);
    ComparedPairs(g, list);
    forall i, j | 0 <= i < j < |list| && list[i].sp == list[j].sp
      ensures list[j].typ == REDUCE
      ensures list[i].typ == SHIFT || (list[i].typ == REDUCE && EarlierRule(g, list[i], list[j]))
    {
      assert list[i] in list && list[j] in list && list[i] != list[j];
      if list[j].typ == SHIFT {
        OneShift(g, states, fws, s, list[i], list[j]);
      } else if list[i].typ == REDUCE {
        RulesExist(g, states, fws, s, list[i]);
        RulesExist(g, states, fws, s, list[j]);
        if RuleIndex(g, list[i].x) == RuleIndex(g, list[j].x) { OneReduce(g, states, fws, s, list[i], list[j]); }
      }
    }
  }

  lemma RulesExist(g: Grammar, states: seq<State>, fws: map<Config, set<nat>>, s: nat, a: Action)
    requires Canonical(g, states) && s < |states| && Wanted(g, states, fws, s, a) && a.typ == REDUCE
    ensures a.x < |g.rules|
  {
    assert ActionsOk(g, states, s);
  }

  /** For every grammar, every action that a state wants is in its finished row once, with the type that
      the precedences alone determine. */
  lemma RowFated(g: Grammar, states: seq<State>, fws: map<Config, set<nat>>, s: nat, row: seq<Action>)
    requires g.Valid() && g.StartOffRhs() && Canonical(g, states) && s < |states|
    requires ResolvedFrom(g, states, fws, s, row)
    ensures exists list :: SortedWanted(g, states, fws, s, list) && Fated(g, Wants(g, states, fws, s), list, row)
  {
    hide Wanted, Canonical, Grammar.Valid, Fated;
    var list :| SortedWanted(g, states, fws, s, list) && row == ResolvePairs(g, list, 0, 1);
    WantedOrdered(g, states, fws, s, list);
    PairsAreFated(g, list);
    assert (iset a | a in list) == Wants(g, states, fws, s);
  }

  /** So where no tie is broken by %nonassoc, the live action on a lookahead is the one to be taken. */
  lemma LiveIsTaken(g: Grammar, states: seq<State>, fws: map<Config, set<nat>>, s: nat, row: seq<Action>, a: Action)
    requires g.Valid() && g.StartOffRhs() && Canonical(g, states) && s < |states|
    requires ResolvedFrom(g, states, fws, s, row) && a in row
    requires a.typ != ERROR
    ensures Live(a) <==> Taken(g, Wants(g, states, fws, s), OriginOf(a))
  {
    hide Wanted, Canonical, Grammar.Valid, Sorted, Taken, ResolvedFrom, Exactly, Distinct, Fate;
    RowFated(g, states, fws, s, row);
    var list :| SortedWanted(g, states, fws, s, list) && Fated(g, Wants(g, states, fws, s), list, row);
    var i :| 0 <= i < |row| && row[i] == a;
    WantedTypes(g, states, fws, s, list, i);
    FateLives(g, Wants(g, states, fws, s), list[i], a.typ);
  }

  lemma WantedTypes(g: Grammar, states: seq<State>, fws: map<Config, set<nat>>, s: nat, list: seq<Action>, i: nat)
    requires g.StartOffRhs() && Canonical(g, states) && s < |states|
    requires SortedWanted(g, states, fws, s, list) && i < |list|
    ensures list[i].typ in {SHIFT, REDUCE, ACCEPT} && list[i] in Wants(g, states, fws, s)
  {
    assert list[i] in list;
    if list[i] in states[s].ap { ShiftNotStart(g, states, s, list[i]); }
  }

  lemma FateLives(g: Grammar, w: iset<Action>, a: Action, t: ActionType)
    requires a.typ in {SHIFT, REDUCE, ACCEPT} && a in w && Fate(g, w, a, t) && t != ERROR
    ensures Origin(t) == a.typ
    ensures Live(a.(typ := t)) <==> Taken(g, w, a)
  {
    assert a.typ == ACCEPT ==> Taken(g, w, a);
    hide Taken;
  }

  // ---------------------------------------------------------------- the assertion, for a state

  /** A shift of state s comes through to a reduction that it ties with, and a reduction by a later rule
      is wanted on the same lookahead. */
  ghost predicate TieFollowed(g: Grammar, states: seq<State>, fws: map<Config, set<nat>>, s: nat)
    requires s < |states|
  {
    exists a, b, c :: FollowedBy(g, states, fws, s, a, b, c)
  }

  ghost predicate FollowedBy(g: Grammar, states: seq<State>, fws: map<Config, set<nat>>, s: nat, a: Action, b: Action,
                             c: Action)
    requires s < |states|
  {
    && TiePair(g, states, fws, s, a, b)
    && Wanted(g, states, fws, s, c) && c.typ == REDUCE && c.sp == b.sp && EarlierRule(g, b, c)
  }

  /** The assertion fails in exactly the states with such a tie. */
  lemma AssertsIff(g: Grammar, states: seq<State>, fws: map<Config, set<nat>>, s: nat, ok: bool)
    requires g.Valid() && g.StartOffRhs() && Canonical(g, states) && s < |states| && Asserts(g, states, fws, s, ok)
    ensures ok <==> !TieFollowed(g, states, fws, s)
  {
    hide *;
    var list := ListOf(g, states, fws, s, ok);
    WantedOrdered(g, states, fws, s, list);
    AssertionFailsIff(g, list);
    if l, m :| AbortsAt(g, list, l, m) { AbortIsFollowed(g, states, fws, s, list, l, m); }
    if TieFollowed(g, states, fws, s) {
      var a, b, c := SomeFollowed(g, states, fws, s);
      FollowedAborts(g, states, fws, s, list, a, b, c);
    }
  }

  lemma ListOf(g: Grammar, states: seq<State>, fws: map<Config, set<nat>>, s: nat, ok: bool) returns (list: seq<Action>)
    requires s < |states| && Asserts(g, states, fws, s, ok)
    ensures SortedWanted(g, states, fws, s, list) && ok == PairsOk(g, list, 0, 1)
  {
    list :| SortedWanted(g, states, fws, s, list) && ok == PairsOk(g, list, 0, 1);
  }

  lemma SomeFollowed(g: Grammar, states: seq<State>, fws: map<Config, set<nat>>, s: nat)
    returns (a: Action, b: Action, c: Action)
    requires s < |states| && TieFollowed(g, states, fws, s)
    ensures FollowedBy(g, states, fws, s, a, b, c)
  {
    a, b, c :| FollowedBy(g, states, fws, s, a, b, c);
  }

  lemma AbortIsFollowed(g: Grammar, states: seq<State>, fws: map<Config, set<nat>>, s: nat, list: seq<Action>, l: nat,
                        m: nat)
    requires s < |states| && SortedWanted(g, states, fws, s, list) && Ordered(g, list) && AbortsAt(g, list, l, m)
    ensures TieFollowed(g, states, fws, s)
  {
    TieInState(g, states, fws, s, list, l, m);
    hide Wanted, Sorted, Grouped, TiePair, Distinct;
    assert list[m + 1] in list;
    assert FollowedBy(g, states, fws, s, list[l], list[m], list[m + 1]);
  }

  lemma FollowedAborts(g: Grammar, states: seq<State>, fws: map<Config, set<nat>>, s: nat, list: seq<Action>, a: Action,
                       b: Action, c: Action)
    requires g.Valid() && Canonical(g, states) && s < |states|
    requires SortedWanted(g, states, fws, s, list) && Ordered(g, list) && FollowedBy(g, states, fws, s, a, b, c)
    ensures exists l, m :: AbortsAt(g, list, l, m)
  {
    hide *;
    FollowedParts(g, states, fws, s, list, a, b, c);
    var k, m := PairPlaces(g, states, fws, s, list, a, b);
    ShiftLeads(g, states, fws, s, list, k);
    NotBeatenBefore(g, states, fws, s, list, k, m);
    Behind(g, list, k, m, c);
  }

  lemma FollowedParts(g: Grammar, states: seq<State>, fws: map<Config, set<nat>>, s: nat, list: seq<Action>, a: Action,
                      b: Action, c: Action)
    requires s < |states| && SortedWanted(g, states, fws, s, list) && FollowedBy(g, states, fws, s, a, b, c)
    ensures TiePair(g, states, fws, s, a, b)
    ensures c in list && c.typ == REDUCE && c.sp == b.sp && EarlierRule(g, b, c)
  {
  }

  lemma Behind(g: Grammar, list: seq<Action>, k: nat, m: nat, c: Action)
    requires Ordered(g, list) && k < m < |list| && list[k].sp == list[m].sp && Leads(list, k)
    requires Tie(g, list[k], list[m]) && Unbeaten(g, list, k, m)
    requires c in list && c.typ == REDUCE && c.sp == list[m].sp && EarlierRule(g, list[m], c)
    ensures AbortsAt(g, list, k, m)
  {
    var j :| 0 <= j < |list| && list[j] == c;
    assert j > m;
    assert list[m].sp <= list[m + 1].sp <= list[j].sp;
  }
}
