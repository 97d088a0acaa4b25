/** `ResortStates` and `compute_action`: the numbers of states and of actions in the emitted
    parser. */
module Resorting {
  import opened Grammars
  import opened Items
  import opened Actions
  import opened MSort
  import opened ConfigLists
  import opened Conflicts
  import opened Machines
  import opened Compression

  // ---------------------------------------------------------------- action codes

  /** The ranges of action codes: YYNSTATE is nxstate. */
  datatype Codes = Codes(nxstate: nat, nstate: nat, nrule: nat) {
    function MaxShift(): int { nxstate - 1 }
    function MinShiftReduce(): int { nstate }
    function MaxShiftReduce(): int { nstate + nrule - 1 }
    function MinReduce(): int { nstate + nrule }
    function MaxReduce(): int { nstate + nrule * 2 - 1 }
    function ErrorAction(): int { nstate + nrule * 2 }
    function AcceptAction(): int { nstate + nrule * 2 + 1 }
    function NoAction(): int { nstate + nrule * 2 + 2 }

    predicate Ok() { nxstate <= nstate }
  }

  /** `compute_action`: -1 when the action is not live. */
  function ComputeAction(c: Codes, statenum: seq<nat>, a: Action): int
    requires a.typ == SHIFT ==> a.x < |statenum|
  {
    match a.typ
    case SHIFT => statenum[a.x]
    case SHIFTREDUCE => a.x + c.nstate
    case REDUCE => a.x + c.nstate + c.nrule
    case ERROR => c.nstate + c.nrule * 2
    case ACCEPT => c.nstate + c.nrule * 2 + 1
    case _ => -1
  }

  /** How the driver reads a code; `sorted` gives the state behind a state number. */
  function Decode(c: Codes, sorted: seq<nat>, code: int): Move {
    if 0 <= code <= c.MaxShift() && code < |sorted| then Goto_(sorted[code])
    else if c.MinShiftReduce() <= code <= c.MaxShiftReduce() then GotoReduce(code - c.MinShiftReduce())
    else if c.MinReduce() <= code <= c.MaxReduce() then Reduce_(code - c.MinReduce())
    else if code == c.AcceptAction() then Accept_
    else Error_
  }

  /** An action that has a code of its own: a shift goes to a state below nxstate. */
  ghost predicate Codable(c: Codes, sorted: seq<nat>, statenum: seq<nat>, a: Action) {
    && Live(a)
    && (a.typ == SHIFT ==>
          && a.x < |statenum| && statenum[a.x] < c.nxstate
          && statenum[a.x] < |sorted| && sorted[statenum[a.x]] == a.x)
    && (a.typ == REDUCE || a.typ == SHIFTREDUCE ==> a.x < c.nrule)
  }

  /** The driver reads back the action that was coded. */
  lemma DecodeComputed(c: Codes, sorted: seq<nat>, statenum: seq<nat>, a: Action)
    requires c.Ok() && Codable(c, sorted, statenum, a)
    ensures ComputeAction(c, statenum, a) >= 0 && Decode(c, sorted, ComputeAction(c, statenum, a)) == MoveOf(a)
  {
  }

  /** The code of a move. */
  predicate CodeFor(c: Codes, sorted: seq<nat>, code: int, m: Move) {
    match m
    case Goto_(q) => 0 <= code < c.nxstate && code < |sorted| && sorted[code] == q
    case GotoReduce(r) => code == c.MinShiftReduce() + r && r < c.nrule
    case Reduce_(r) => code == c.MinReduce() + r && r < c.nrule
    case Accept_ => code == c.AcceptAction()
    case Error_ => code == c.ErrorAction()
  }

  lemma CodeOfAction(c: Codes, sorted: seq<nat>, statenum: seq<nat>, a: Action)
    requires Codable(c, sorted, statenum, a)
    ensures CodeFor(c, sorted, ComputeAction(c, statenum, a), MoveOf(a))
  {
  }

  /** So different moves have different codes. */
  lemma CodesInjective(c: Codes, sorted: seq<nat>, statenum: seq<nat>, a: Action, a': Action)
    requires c.Ok() && Codable(c, sorted, statenum, a) && Codable(c, sorted, statenum, a')
    ensures ComputeAction(c, statenum, a) == ComputeAction(c, statenum, a') <==>
            MoveOf(a) == MoveOf(a') && (a.typ == ERROR <==> a'.typ == ERROR)
  {
    DecodeComputed(c, sorted, statenum, a);
    DecodeComputed(c, sorted, statenum, a');
  }

  // ---------------------------------------------------------------- counting actions

  function TokenCount(g: Grammar, row: seq<Action>): nat {
    if row == [] then 0
    else TokenCount(g, row[..|row| - 1]) + if Live(row[|row| - 1]) && row[|row| - 1].sp < g.nterminal then 1 else 0
  }

  function NtCount(g: Grammar, row: seq<Action>): nat {
    if row == [] then 0
    else NtCount(g, row[..|row| - 1]) + if Live(row[|row| - 1]) && g.Nonterminal(row[|row| - 1].sp) then 1 else 0
  }

  /** The positions of the live actions on tokens, and on nonterminals. */
  ghost function TokenPlaces(g: Grammar, row: seq<Action>): set<nat> {
    set i: nat | i < |row| && Live(row[i]) && row[i].sp < g.nterminal
  }

  ghost function NtPlaces(g: Grammar, row: seq<Action>): set<nat> {
    set i: nat | i < |row| && Live(row[i]) && g.nterminal <= row[i].sp < g.NSymbol()
  }

  lemma {:induction false} CountsAreSizes(g: Grammar, row: seq<Action>)
    ensures TokenCount(g, row) == |TokenPlaces(g, row)| && NtCount(g, row) == |NtPlaces(g, row)|
  {
    hide Live;
    if row != [] {
      var n := |row| - 1;
      CountsAreSizes(g, row[..n]);
      hide TokenPlaces, NtPlaces;
      PlacesStep(g, row[..n], row[n]);
      assert row == row[..n] + [row[n]];
    }
  }

  lemma PlacesStep(g: Grammar, row: seq<Action>, a: Action)
    ensures TokenPlaces(g, row + [a]) == TokenPlaces(g, row) + if Live(a) && a.sp < g.nterminal then {|row|} else {}
    ensures NtPlaces(g, row + [a]) == NtPlaces(g, row) + if Live(a) && g.Nonterminal(a.sp) then {|row|} else {}
    ensures |row| !in TokenPlaces(g, row) && |row| !in NtPlaces(g, row)
  {
    hide Live;
  }

  /** The rule of the default reduction, or nrule for the error action. */
  function DefaultRule(g: Grammar, row: seq<Action>): nat {
    var d := LiveOn(row, g.NSymbol());
    if d == [] then |g.rules| else d[0].x
  }

  // ---------------------------------------------------------------- the order of states

  function Nt(g: Grammar, rows: seq<seq<Action>>, s: nat): nat {
    if s < |rows| then NtCount(g, rows[s]) else 0
  }

  function Tkn(g: Grammar, rows: seq<seq<Action>>, s: nat): nat {
    if s < |rows| then TokenCount(g, rows[s]) else 0
  }

  /** `stateResortCompare`; states are identified by their numbers before sorting. */
  function StateResortCompare(g: Grammar, rows: seq<seq<Action>>, a: nat, b: nat): int {
    if Nt(g, rows, a) != Nt(g, rows, b) then Nt(g, rows, b) - Nt(g, rows, a)
    else if Tkn(g, rows, a) != Tkn(g, rows, b) then Tkn(g, rows, b) - Tkn(g, rows, a)
    else b - a
  }

  function StateOrder(g: Grammar, rows: seq<seq<Action>>): (nat, nat) -> int {
    (a: nat, b: nat) => StateResortCompare(g, rows, a, b)
  }

  lemma StateOrderCompares(g: Grammar, rows: seq<seq<Action>>)
    ensures Comparison(StateOrder(g, rows))
  {
  }

  /** sorted and statenum are inverse to each other, and state 0 stays first. */
  ghost predicate Renumbered(n: nat, sorted: seq<nat>, statenum: seq<nat>) {
    && |sorted| == |statenum| == n
    && (forall i | 0 <= i < n :: sorted[i] < n && statenum[sorted[i]] == i)
    && (forall s | 0 <= s < n :: statenum[s] < n && sorted[statenum[s]] == s)
    && (n > 0 ==> sorted[0] == 0)
  }

  /** State a has more nonterminal actions than state b, or as many and more token actions, or as many of
      both and the higher number. */
  ghost predicate Precedes(g: Grammar, rows: seq<seq<Action>>, a: nat, b: nat) {
    || Nt(g, rows, a) > Nt(g, rows, b)
    || (Nt(g, rows, a) == Nt(g, rows, b) && Tkn(g, rows, a) > Tkn(g, rows, b))
    || (Nt(g, rows, a) == Nt(g, rows, b) && Tkn(g, rows, a) == Tkn(g, rows, b) && a > b)
  }

  /** After state 0, most nonterminal actions first, then most token actions. */
  ghost predicate InOrder(g: Grammar, rows: seq<seq<Action>>, sorted: seq<nat>) {
    forall i, j | 1 <= i < j < |sorted| :: Precedes(g, rows, sorted[i], sorted[j])
  }

  /** From nxstate on all states are automatic, and no state before that could be left out. */
  ghost predicate Trimmed(auto: seq<bool>, sorted: seq<nat>, nxstate: nat)
    requires forall i | 0 <= i < |sorted| :: sorted[i] < |auto|
  {
    && 1 <= nxstate <= |sorted|
    && (forall i | nxstate <= i < |sorted| :: auto[sorted[i]])
    && (nxstate > 1 ==> !auto[sorted[nxstate - 1]])
  }

  /** Hence a state that is not automatic is emitted. */
  lemma NotAutomaticEmitted(auto: seq<bool>, sorted: seq<nat>, statenum: seq<nat>, nxstate: nat, s: nat)
    requires Renumbered(|auto|, sorted, statenum) && Trimmed(auto, sorted, nxstate) && s < |auto| && !auto[s]
    ensures statenum[s] < nxstate
  {
    assert sorted[statenum[s]] == s;
  }

  /** Neither a token nor a nonterminal action. */
  ghost predicate Idle(g: Grammar, rows: seq<seq<Action>>, s: nat) {
    Nt(g, rows, s) == 0 && Tkn(g, rows, s) == 0
  }

  /** Automatic state s comes behind state q in the file of states, and q is neither automatic nor does it
      have any action. */
  ghost predicate HeldBack(g: Grammar, rows: seq<seq<Action>>, auto: seq<bool>, q: nat, s: nat) {
    0 < q < s < |auto| && !auto[q] && Idle(g, rows, q) && auto[s]
  }

  /** The automatic states are left out, all but state 0, if and only if none is held back so. */
  lemma AutomaticLeftOut(g: Grammar, rows: seq<seq<Action>>, auto: seq<bool>, sorted: seq<nat>, statenum: seq<nat>,
                         nxstate: nat)
    requires |rows| == |auto| && Renumbered(|rows|, sorted, statenum) && InOrder(g, rows, sorted)
    requires Trimmed(auto, sorted, nxstate) && forall s | 0 < s < |auto| && auto[s] :: Idle(g, rows, s)
    ensures (forall s | 0 < s < |auto| && auto[s] :: statenum[s] >= nxstate) <==>
            !exists q: nat, s: nat :: HeldBack(g, rows, auto, q, s)
  {
    hide Nt, Tkn;
    if q: nat, s: nat :| HeldBack(g, rows, auto, q, s) {
      assert sorted[statenum[q]] == q && sorted[statenum[s]] == s && statenum[0] == 0;
      assert statenum[s] < statenum[q] < nxstate;
    }
    if s: nat :| 0 < s < |auto| && auto[s] && statenum[s] < nxstate {
      var q := sorted[nxstate - 1];
      assert sorted[statenum[s]] == s && Precedes(g, rows, s, q);
      assert HeldBack(g, rows, auto, q, s);
    }
  }

  // ---------------------------------------------------------------- ResortStates

  /** What compression leaves of a row, as far as coding it goes. */
  ghost predicate TableRow(g: Grammar, auto: seq<bool>, dflt: seq<int>, s: nat, row: seq<Action>) {
    && OneLive(row)
    && forall a | LiveIn(row, a) ::
         && a.typ != ERROR && a.sp <= g.NSymbol()
         && (a.typ == SHIFT ==> a.x < |auto| && !auto[a.x])
         && (a.typ == REDUCE || a.typ == SHIFTREDUCE ==> a.x < |g.rules|)
         && (a.sp == g.NSymbol() ==> a.typ == REDUCE && (s < |auto| && s < |dflt| && auto[s] ==> dflt[s] == a.x))
  }

  ghost predicate TableRows(g: Grammar, auto: seq<bool>, dflt: seq<int>, rows: seq<seq<Action>>) {
    && |rows| == |auto| == |dflt| > 0
    && forall s | 0 <= s < |rows| :: TableRow(g, auto, dflt, s, rows[s])
  }

  /** For example `p ::= A.  s ::= p q.  q ::= q B.` with start symbol s, $ 0, A 1, B 2, p 3, s 4 and q 5:
      nothing can follow p, so the state behind A, which is state 1, has no action, and the automatic state
      behind B is emitted. */
  lemma AutomaticEmitted(sorted: seq<nat>, statenum: seq<nat>, nxstate: nat)
    requires Renumbered(5, sorted, statenum)
    requires InOrder(WithoutFollow(), RowsWithoutFollow(), sorted)
    requires Trimmed([false, false, false, false, true], sorted, nxstate)
    ensures TableRows(WithoutFollow(), [false, false, false, false, true], [-1, -1, -1, -1, 2], RowsWithoutFollow())
    ensures statenum[4] < nxstate
  {
    RowsFit();
    NoActions();
    hide WithoutFollow, RowsWithoutFollow, TableRows, Idle, Renumbered, InOrder, Trimmed;
    var auto := [false, false, false, false, true];
    assert HeldBack(WithoutFollow(), RowsWithoutFollow(), auto, 1, 4);
    AutomaticLeftOut(WithoutFollow(), RowsWithoutFollow(), auto, sorted, statenum, nxstate);
  }

  lemma RowsFit()
    ensures TableRows(WithoutFollow(), [false, false, false, false, true], [-1, -1, -1, -1, 2], RowsWithoutFollow())
  {
  }

  lemma NoActions()
    ensures |RowsWithoutFollow()| == 5
    ensures Idle(WithoutFollow(), RowsWithoutFollow(), 1) && Idle(WithoutFollow(), RowsWithoutFollow(), 4)
  {
  }

  function WithoutFollow(): Grammar {
    Grammar(3, seq(6, _ => Symbol(-1, UNK)),
            [Rule(3, [1], 0, -1, false), Rule(4, [3, 5], 1, -1, false), Rule(5, [5, 2], 2, -1, false)], 4)
  }

  function RowsWithoutFollow(): seq<seq<Action>> {
    [[Action(1, SHIFT, 1), Action(3, SHIFT, 2), Action(4, ACCEPT, 0)],
     [],
     [Action(5, SHIFT, 3)],
     [Action(0, REDUCE, 1), Action(2, SHIFTREDUCE, 2)],
     [Action(6, REDUCE, 2)]]
  }

  class StateNumbers {
    var sorted: seq<nat>
    var statenum: seq<nat>
    var nTknAct: seq<nat>
    var nNtAct: seq<nat>
    var iDfltReduce: seq<nat>
    var nxstate: nat

    /** The states as `FindStates` numbered them. */
    constructor (n: nat)
      ensures sorted == statenum == seq(n, i requires 0 <= i < n => i)
    {
      sorted, statenum := seq(n, i requires 0 <= i < n => i), seq(n, i requires 0 <= i < n => i);
      nTknAct, nNtAct, iDfltReduce, nxstate := [], [], [], 0;
    }

    method ResortStates(g: Grammar, rows: seq<seq<Action>>, auto: seq<bool>, dflt: seq<int>)
      requires g.Valid() && TableRows(g, auto, dflt, rows)
      requires sorted == statenum == seq(|rows|, i requires 0 <= i < |rows| => i)
      modifies this
      ensures Renumbered(|rows|, sorted, statenum) && InOrder(g, rows, sorted)
      ensures Trimmed(auto, sorted, nxstate)
      ensures |nTknAct| == |nNtAct| == |iDfltReduce| == |rows|
      ensures forall s | 0 <= s < |rows| ::
                nTknAct[s] == TokenCount(g, rows[s]) && nNtAct[s] == NtCount(g, rows[s])
                  && iDfltReduce[s] == DefaultRule(g, rows[s])
    {
      hide *;
      RowsOf(g, auto, dflt, rows);
      nTknAct, nNtAct, iDfltReduce := [], [], [];
      for s := 0 to |rows|
        invariant |nTknAct| == |nNtAct| == |iDfltReduce| == s
        invariant sorted == statenum == seq(|rows|, i requires 0 <= i < |rows| => i)
        invariant forall k | 0 <= k < s ::
          nTknAct[k] == TokenCount(g, rows[k]) && nNtAct[k] == NtCount(g, rows[k])
            && iDfltReduce[k] == DefaultRule(g, rows[k])
      {
        var tkn, nt, rule := CountActions(g, auto, dflt, s, rows[s], Codes(0, |rows|, |g.rules|), statenum);
        nTknAct, nNtAct, iDfltReduce := nTknAct + [tkn], nNtAct + [nt], iDfltReduce + [rule];
      }
      sorted := SortStates(g, rows);
      statenum := Invert(sorted);
      nxstate := Trim(auto, sorted);
    }
  }

  lemma RowsOf(g: Grammar, auto: seq<bool>, dflt: seq<int>, rows: seq<seq<Action>>)
    requires TableRows(g, auto, dflt, rows)
    ensures |rows| == |auto| == |dflt| > 0 && forall s | 0 <= s < |rows| :: TableRow(g, auto, dflt, s, rows[s])
  {
  }

  method CountActions(g: Grammar, auto: seq<bool>, dflt: seq<int>, s: nat, row: seq<Action>, c: Codes,
                      statenum: seq<nat>)
    returns (tkn: nat, nt: nat, rule: nat)
    requires g.Valid() && TableRow(g, auto, dflt, s, row) && s < |auto| == |dflt| == |statenum| && c.nrule == |g.rules|
    ensures tkn == TokenCount(g, row) && nt == NtCount(g, row) && rule == DefaultRule(g, row)
  {
    tkn, nt, rule := 0, 0, c.nrule;
    for i := 0 to |row|
      invariant tkn == TokenCount(g, row[..i]) && nt == NtCount(g, row[..i])
      invariant rule == |g.rules| ==> forall k | 0 <= k < i :: !(Live(row[k]) && row[k].sp == g.NSymbol())
      invariant rule != |g.rules| ==> exists k | 0 <= k < i ::
                Live(row[k]) && row[k].sp == g.NSymbol() && row[k].x == rule
    {
      var a := row[i];
      assert a in row && row[..i + 1][..i] == row[..i];
      assert LiveIn(row, a) <==> Live(a);
      var iAction := ComputeAction(c, statenum, a);
      assert iAction >= 0 <==> Live(a);
      if iAction >= 0 {
        assert LiveIn(row, a);
        if a.sp < g.nterminal {
          tkn := tkn + 1;
        } else if a.sp < g.NSymbol() {
          nt := nt + 1;
        } else {
          assert a.sp == g.NSymbol() && a.typ == REDUCE && a.x < |g.rules|;
          assert !auto[s] || dflt[s] == a.x;
          rule := iAction - c.nstate - c.nrule;
        }
      }
    }
    assert row[..|row|] == row;
    DefaultFound(g, row, rule);
  }

  lemma DefaultFound(g: Grammar, row: seq<Action>, rule: nat)
    requires OneLive(row)
    requires rule == |g.rules| ==> forall k | 0 <= k < |row| :: !(Live(row[k]) && row[k].sp == g.NSymbol())
    requires rule != |g.rules| ==> exists k | 0 <= k < |row| ::
             Live(row[k]) && row[k].sp == g.NSymbol() && row[k].x == rule
    ensures rule == DefaultRule(g, row)
  {
    if rule == |g.rules| {
      NoneOn(row, g.NSymbol());
    } else {
      var k :| 0 <= k < |row| && Live(row[k]) && row[k].sp == g.NSymbol() && row[k].x == rule;
      LiveOnUnique(row, row[k]);
    }
  }

  /** All states but the first by `qsort`; no two compare equal, so any sorting gives this list. */
  method SortStates(g: Grammar, rows: seq<seq<Action>>) returns (sorted: seq<nat>)
    requires 0 < |rows|
    ensures |sorted| == |rows| && sorted[0] == 0 && Distinct(sorted) && InOrder(g, rows, sorted)
    ensures forall i | 0 <= i < |sorted| :: sorted[i] < |rows|
  {
    hide StateResortCompare;
    var n := |rows| - 1;
    var rest: seq<nat> := seq(n, i requires 0 <= i < n => i + 1);
    StateOrderCompares(g, rows);
    var ordered := Qsort<nat>(rest, StateOrder(g, rows));
    RestOrdered(g, rows, rest, ordered);
    sorted := [0] + ordered;
  }

  lemma RestOrdered(g: Grammar, rows: seq<seq<Action>>, rest: seq<nat>, ordered: seq<nat>)
    requires multiset(ordered) == multiset(rest) && Sorted(StateOrder(g, rows), ordered)
    requires |rest| == |rows| - 1 && forall i | 0 <= i < |rest| :: rest[i] == i + 1
    ensures var sorted := [0] + ordered;
            && |sorted| == |rows| && Distinct(sorted) && InOrder(g, rows, sorted)
            && forall i | 0 <= i < |sorted| :: sorted[i] < |rows|
  {
    hide NtCount, TokenCount;
    SameLength(rest, ordered);
    SameElements(ordered, rest);
    DistinctPermutation(rest, ordered);
    var sorted := [0] + ordered;
    forall i | 0 <= i < |ordered|
      ensures 0 < ordered[i] < |rows|
    {
      assert ordered[i] in rest;
    }
    forall i, j | 1 <= i < j < |sorted|
      ensures Precedes(g, rows, sorted[i], sorted[j])
    {
      assert StateOrder(g, rows)(ordered[i - 1], ordered[j - 1]) <= 0;
      assert ordered[i - 1] != ordered[j - 1];
    }
  }

  /** Every state gets its position as its number. */
  method Invert(sorted: seq<nat>) returns (statenum: seq<nat>)
    requires Distinct(sorted) && forall i | 0 <= i < |sorted| :: sorted[i] < |sorted|
    requires sorted != [] ==> sorted[0] == 0
    ensures Renumbered(|sorted|, sorted, statenum)
  {
    statenum := seq(|sorted|, i requires 0 <= i < |sorted| => 0);
    for i := 0 to |sorted|
      invariant |statenum| == |sorted|
      invariant forall k | 0 <= k < i :: statenum[sorted[k]] == k
    {
      assert forall k | 0 <= k < i :: sorted[k] != sorted[i];
      statenum := statenum[sorted[i] := i];
    }
    forall s | 0 <= s < |sorted|
      ensures statenum[s] < |sorted| && sorted[statenum[s]] == s
    {
      var i := Onto(sorted, s);
      assert statenum[sorted[i]] == i;
    }
  }

  /** n distinct numbers below n are all of them. */
  lemma Onto(sorted: seq<nat>, s: nat) returns (i: nat)
    requires Distinct(sorted) && (forall i | 0 <= i < |sorted| :: sorted[i] < |sorted|) && s < |sorted|
    ensures i < |sorted| && sorted[i] == s
  {
    if s !in sorted {
      var all := UpTo(|sorted|) - {s};
      DistinctBound(sorted, all);
    }
    i :| 0 <= i < |sorted| && sorted[i] == s;
  }

  /** Automatic states are dropped from the end, except for state 0. */
  method Trim(auto: seq<bool>, sorted: seq<nat>) returns (nxstate: nat)
    requires sorted != [] && forall i | 0 <= i < |sorted| :: sorted[i] < |auto|
    ensures Trimmed(auto, sorted, nxstate)
  {
    nxstate := |sorted|;
    while nxstate > 1 && auto[sorted[nxstate - 1]]
      invariant 1 <= nxstate <= |sorted|
      invariant forall i | nxstate <= i < |sorted| :: auto[sorted[i]]
    {
      nxstate := nxstate - 1;
    }
  }
}
