/** The emitted parser: `Parse` with `yy_shift`, `yy_reduce` and `yy_accept`, in the default build
    without an error symbol. */
module Parsers {
  import opened Grammars
  import opened Items
  import opened Actions
  import opened Collections
  import opened Machines
  import opened Soundness
  import opened Loops
  import opened Resorting
  import opened Emission

  datatype Entry = Entry(stateno: nat, major: nat)

  /** What `ReportTable` emits for sound rows of the states. */
  ghost predicate HasTables(g: Grammar, states: seq<State>, v: Numbering, t: Tables) {
    && g.Valid() && g.StartOffRhs() && Canonical(g, states)
    && v.Ok() && v.g == g && |v.rows| == |states| && SoundRows(g, states, v.rows)
    && exists ofst, offsets :: Reported(v, t, ofst, offsets)
  }

  /** The rows for which the token lookups are exact and defined in every emitted state: no search for
      a place ran into another token set's offset, and the last emitted state has a token action. */
  ghost predicate Packable(v: Numbering) {
    && !Clash(v)
    && 0 < v.nxstate <= |v.sorted| && v.sorted[v.nxstate - 1] < |v.rows|
    && TokenCount(v.g, RowOf(v, v.nxstate - 1)) > 0
  }

  /** A state number stands for a state, or for a reduction still to be made. */
  ghost predicate Stands(v: Numbering, stateno: nat, p: Place) {
    match p
    case At(s) => stateno < v.nxstate && stateno < |v.sorted| && v.sorted[stateno] == s
    case Pending(r) => r < |v.g.rules| && stateno == v.C().MinReduce() + r
  }

  lemma Sizes(g: Grammar, states: seq<State>, v: Numbering, t: Tables)
    requires HasTables(g, states, v, t)
    ensures t.c == v.C() && |t.shiftOfst| <= v.nxstate == |t.dflt| <= |v.rows|
    ensures |v.rows| == |v.sorted| == |states| > 0 && v.nxstate > 0 && v.sorted[0] == 0
    ensures forall i | 0 <= i < |v.sorted| :: v.sorted[i] < |v.rows|
  {
    var ofst, offsets :| Reported(v, t, ofst, offsets);
    TableSizes(v, t, ofst, offsets);
  }

  /** For such rows the emitted tables are exact. */
  lemma Exact(g: Grammar, states: seq<State>, v: Numbering, t: Tables)
    requires HasTables(g, states, v, t) && Packable(v)
    ensures Apart(v, t) && |t.shiftOfst| == v.nxstate == |t.dflt| && |t.action| == |t.lookahead|
  {
    hide Canonical, SoundRows, Numbering.Ok, Reported, Clash, Apart, TokenCount;
    var ofst, offsets :| Reported(v, t, ofst, offsets);
    Sizes(g, states, v, t);
    ShiftCountIff(v, t, ofst, offsets);
    TableSizes(v, t, ofst, offsets);
    ApartIffNoClash(v, t, ofst, offsets);
  }

  /** What `yy_find_shift_action` returns codes the move of the machine; what it asserts holds. */
  lemma ShiftAction(g: Grammar, states: seq<State>, v: Numbering, t: Tables, stateno: nat, p: Place, a: nat)
    requires HasTables(g, states, v, t) && Packable(v) && Stands(v, stateno, p) && a < g.nterminal
    ensures |t.action| == |t.lookahead|
    ensures stateno < t.c.MinReduce() ==> stateno < |t.shiftOfst| && stateno < |t.dflt|
    ensures CodeFor(v.C(), v.sorted, FindShiftAction(t, stateno, a), TokenMove(g, v.rows, p, a))
  {
    hide Canonical, SoundRows, Numbering.Ok, Apart, Reported, RightCode, Packable;
    Sizes(g, states, v, t);
    Exact(g, states, v, t);
    if p.At? {
      var ofst, offsets :| Reported(v, t, ofst, offsets);
      ShiftLookup(v, t, ofst, offsets, stateno, a);
      CodeOnToken(v, stateno, a, FindShiftAction(t, stateno, a));
    }
  }

  /** So does `yy_find_reduce_action` where the machine goes on after a reduction. */
  lemma ReduceAction(g: Grammar, states: seq<State>, v: Numbering, t: Tables, stateno: nat, s: nat, x: nat)
    requires HasTables(g, states, v, t) && Stands(v, stateno, At(s)) && g.Nonterminal(x)
    requires GotoMove(v.rows, s, x) != Error_
    ensures ReduceDefined(t, stateno, x)
    ensures CodeFor(v.C(), v.sorted, FindReduceAction(t, stateno, x), GotoMove(v.rows, s, x))
  {
    hide Canonical, SoundRows, Numbering.Ok, Apart, Reported, RightCode, ReduceDefined;
    Sizes(g, states, v, t);
    var ofst, offsets :| Reported(v, t, ofst, offsets);
    assert RowOf(v, stateno) == v.rows[s];
    ReduceLookup(v, t, ofst, offsets, stateno, x);
    CodeOnGoto(v, stateno, x, FindReduceAction(t, stateno, x));
  }

  /** `yy_shift` and `yy_reduce` turn a SHIFTREDUCE code into the REDUCE code of its rule. */
  function StateOf(c: Codes, act: nat): nat {
    if act > c.MaxShift() then act + (c.MinReduce() - c.MinShiftReduce()) else act
  }

  lemma PushedStands(v: Numbering, act: nat, m: Move)
    requires v.Ok() && CodeFor(v.C(), v.sorted, act, m) && (m.Goto_? || m.GotoReduce?)
    ensures act <= v.C().MaxShiftReduce()
    ensures Pushed(m) != [] && Stands(v, StateOf(v.C(), act), Pushed(m)[0])
  {
  }

  lemma CodeRanges(v: Numbering, act: int, m: Move)
    requires v.Ok() && CodeFor(v.C(), v.sorted, act, m)
    ensures act >= 0
    ensures act <= v.C().MaxShiftReduce() <==> m.Goto_? || m.GotoReduce?
    ensures v.C().MaxShiftReduce() < act <= v.C().MaxReduce() <==> m.Reduce_?
    ensures m.Reduce_? ==> act - v.C().MinReduce() == m.r < |v.g.rules|
    ensures act == v.C().ErrorAction() <==> m.Error_?
    ensures act == v.C().AcceptAction() <==> m.Accept_?
  {
  }

  // ---------------------------------------------------------------- the stack

  function PlaceOf(v: Numbering, stateno: nat): Place {
    if stateno >= v.C().MinReduce() then Pending(stateno - v.C().MinReduce())
    else At(if stateno < |v.sorted| then v.sorted[stateno] else 0)
  }

  ghost function Places(v: Numbering, stack: seq<Entry>): (p: seq<Place>)
    ensures |p| == |stack|
  {
    seq(|stack|, i requires 0 <= i < |stack| => PlaceOf(v, stack[i].stateno))
  }

  ghost predicate EntriesOk(v: Numbering, stack: seq<Entry>) {
    forall i | 0 <= i < |stack| :: Stands(v, stack[i].stateno, PlaceOf(v, stack[i].stateno))
  }

  /** The symbols on the stack are the roots of the trees, up to unit rules without code. */
  ghost predicate Majors(g: Grammar, stack: seq<Entry>, trees: seq<Tree>) {
    && |stack| == |trees| + 1
    && forall i | 0 <= i < |trees| :: UnitChain(g, stack[i + 1].major, Root(g, trees[i]))
  }

  ghost predicate StackOk(g: Grammar, states: seq<State>, v: Numbering, stack: seq<Entry>, path: seq<nat>,
                          trees: seq<Tree>) {
    EntriesOk(v, stack) && StackInv(g, states, Places(v, stack), path, trees) && Majors(g, stack, trees)
  }

  lemma StandsPlace(v: Numbering, stateno: nat, p: Place)
    requires v.Ok() && Stands(v, stateno, p)
    ensures PlaceOf(v, stateno) == p
  {
  }

  lemma StackSize(g: Grammar, states: seq<State>, v: Numbering, stack: seq<Entry>, path: seq<nat>, trees: seq<Tree>)
    requires StackOk(g, states, v, stack, path, trees)
    ensures |stack| == |path| == |trees| + 1 && |Places(v, stack)| == |stack|
    ensures Stands(v, stack[|stack| - 1].stateno, Places(v, stack)[|stack| - 1])
  {
  }

  lemma StackStart(g: Grammar, states: seq<State>, v: Numbering, t: Tables)
    requires HasTables(g, states, v, t)
    ensures StackOk(g, states, v, [Entry(0, 0)], [0], [])
    ensures Places(v, [Entry(0, 0)]) == [At(0)]
  {
    Sizes(g, states, v, t);
    StackInvStart(g, states);
    assert Places(v, [Entry(0, 0)]) == [At(0)];
  }

  /** Cutting the stack back and pushing an entry. */
  lemma PlacesPush(v: Numbering, stack: seq<Entry>, n: nat, e: Entry, p: Place)
    requires v.Ok() && EntriesOk(v, stack) && n <= |stack| && Stands(v, e.stateno, p)
    ensures EntriesOk(v, stack[..n] + [e]) && Places(v, stack[..n] + [e]) == Places(v, stack)[..n] + [p]
  {
    StandsPlace(v, e.stateno, p);
  }

  // ---------------------------------------------------------------- single steps

  lemma ShiftKeepsStack(g: Grammar, states: seq<State>, v: Numbering, t: Tables, stack: seq<Entry>, path: seq<nat>,
                        trees: seq<Tree>,
                        a: nat, act: nat)
    returns (q: nat)
    requires HasTables(g, states, v, t) && StackOk(g, states, v, stack, path, trees) && a < g.nterminal
    requires CodeFor(v.C(), v.sorted, act, TokenMove(g, v.rows, Places(v, stack)[|stack| - 1], a))
    requires act <= v.C().MaxShiftReduce()
    ensures var m := TokenMove(g, v.rows, Places(v, stack)[|stack| - 1], a);
            var stack' := stack + [Entry(StateOf(v.C(), act), a)];
            && (m.Goto_? || m.GotoReduce?)
            && StackOk(g, states, v, stack', path + [q], trees + [Leaf(a)])
            && Places(v, stack') == Places(v, stack) + Pushed(m)
            && YieldAll(trees + [Leaf(a)]) == YieldAll(trees) + [a]
    ensures a != 0
  {
    hide *;
    ParserParts(g, states, v, t);
    StackFacts(g, states, v, stack, path, trees);
    var m := TokenMove(g, v.rows, Places(v, stack)[|stack| - 1], a);
    CodeRanges(v, act, m);
    PushedStands(v, act, m);
    q := ShiftKeeps(g, states, v.rows, Places(v, stack), path, trees, a);
    TokenNotEnd(g, states, Places(v, stack), path, trees, a, m, q);
    var e := Entry(StateOf(v.C(), act), a);
    PlacesPush(v, stack, |stack|, e, Pushed(m)[0]);
    assert stack[..|stack|] == stack && Places(v, stack)[..|stack|] == Places(v, stack);
    OnePushed(m);
    MajorsPush(g, stack, trees, e);
    StackFrom(g, states, v, stack + [e], path + [q], trees + [Leaf(a)]);
  }

  lemma OnePushed(m: Move)
    requires m.Goto_? || m.GotoReduce?
    ensures Pushed(m) == [Pushed(m)[0]]
  {
  }

  lemma ParserParts(g: Grammar, states: seq<State>, v: Numbering, t: Tables)
    requires HasTables(g, states, v, t)
    ensures g.Valid() && g.StartOffRhs() && Canonical(g, states) && v.Ok() && SoundRows(g, states, v.rows) && v.g == g
  {
  }

  lemma StackFacts(g: Grammar, states: seq<State>, v: Numbering, stack: seq<Entry>, path: seq<nat>, trees: seq<Tree>)
    requires StackOk(g, states, v, stack, path, trees)
    ensures |stack| == |path| == |trees| + 1
    ensures EntriesOk(v, stack) && StackInv(g, states, Places(v, stack), path, trees) && Majors(g, stack, trees)
  {
  }

  lemma StackFrom(g: Grammar, states: seq<State>, v: Numbering, stack: seq<Entry>, path: seq<nat>, trees: seq<Tree>)
    requires EntriesOk(v, stack) && StackInv(g, states, Places(v, stack), path, trees) && Majors(g, stack, trees)
    ensures StackOk(g, states, v, stack, path, trees)
  {
  }

  lemma MajorsPush(g: Grammar, stack: seq<Entry>, trees: seq<Tree>, e: Entry)
    requires Majors(g, stack, trees)
    ensures Majors(g, stack + [e], trees + [Leaf(e.major)])
  {
    UnitChainRefl(g, e.major);
  }

  /** "$" is never shifted: it is on no right-hand side. */
  lemma TokenNotEnd(g: Grammar, states: seq<State>, stack: seq<Place>, path: seq<nat>, trees: seq<Tree>, a: nat,
                    m: Move, q: nat)
    requires g.Valid() && StackInv(g, states, stack + Pushed(m), path + [q], trees + [Leaf(a)]) && |path| == |trees| + 1
    ensures a != 0
  {
    var n := |trees|;
    var path', trees' := path + [q], trees + [Leaf(a)];
    assert ShiftTo(g, states, path'[n], Root(g, trees'[n]), path'[n + 1]);
    var i :| i in states[path'[n]].cfp && Shifts(g, i, a);
    assert g.ValidRule(g.rules[i.rule]);
  }

  /** The stack after a reduction that goes on. */
  function ReducedStack(g: Grammar, c: Codes, stack: seq<Entry>, r: nat, act: nat): seq<Entry>
    requires r < |g.rules| && |g.rules[r].rhs| <= |stack|
  {
    stack[..|stack| - |g.rules[r].rhs|] + [Entry(StateOf(c, act), g.rules[r].lhs)]
  }

  /** The state under the right-hand side, and what the machine does there. */
  ghost predicate ExposedOk(g: Grammar, v: Numbering, stack: seq<Entry>, r: nat) {
    && r < |g.rules| && |g.rules[r].rhs| < |stack|
    && var n := |stack| - |g.rules[r].rhs|;
       var s := stack[n - 1].stateno;
       && s < |v.sorted| && Stands(v, s, At(v.sorted[s]))
       && AfterReduce(g, v.rows, Places(v, stack), r) ==
            AfterGoto(Places(v, stack)[..n], GotoMove(v.rows, v.sorted[s], g.rules[r].lhs))
       && GotoMove(v.rows, v.sorted[s], g.rules[r].lhs) != Error_
  }

  /** The tables code the goto of s on x. */
  ghost predicate GotoCoded(v: Numbering, t: Tables, s: nat, x: nat) {
    && s < |v.sorted|
    && ReduceDefined(t, s, x)
    && CodeFor(v.C(), v.sorted, FindReduceAction(t, s, x), GotoMove(v.rows, v.sorted[s], x))
  }

  lemma ExposedState(g: Grammar, v: Numbering, stack: seq<Entry>, r: nat)
    requires EntriesOk(v, stack) && AfterReduce(g, v.rows, Places(v, stack), r) != Failed
    ensures ExposedOk(g, v, stack, r)
  {
    hide GotoMove;
    var n := |stack| - |g.rules[r].rhs|;
    var p := Places(v, stack);
    assert p[..n][n - 1] == p[n - 1] == PlaceOf(v, stack[n - 1].stateno);
  }

  lemma ExposedGoto(g: Grammar, states: seq<State>, v: Numbering, t: Tables, stack: seq<Entry>, r: nat)
    requires HasTables(g, states, v, t) && ExposedOk(g, v, stack, r)
    ensures GotoCoded(v, t, stack[|stack| - |g.rules[r].rhs| - 1].stateno, g.rules[r].lhs)
  {
    hide HasTables, GotoMove, ReduceDefined, CodeFor, AfterReduce, AfterGoto;
    ParserParts(g, states, v, t);
    ReducedLhs(g, r);
    var s := stack[|stack| - |g.rules[r].rhs| - 1].stateno;
    ReduceAction(g, states, v, t, s, v.sorted[s], g.rules[r].lhs);
  }

  /** The state that a reduction exposes has the goto it needs. */
  lemma Exposed(g: Grammar, states: seq<State>, v: Numbering, t: Tables, stack: seq<Entry>, path: seq<nat>,
                trees: seq<Tree>, r: nat, a: nat)
    requires HasTables(g, states, v, t) && StackOk(g, states, v, stack, path, trees)
    requires Reducible(g, states, Places(v, stack), path, r, a)
    ensures ExposedOk(g, v, stack, r) && r < |g.rules| && |g.rules[r].rhs| < |stack|
    ensures GotoCoded(v, t, stack[|stack| - |g.rules[r].rhs| - 1].stateno, g.rules[r].lhs)
    ensures AfterReduce(g, v.rows, Places(v, stack), r) != Failed
  {
    hide *;
    ParserParts(g, states, v, t);
    StackFacts(g, states, v, stack, path, trees);
    var path', trees' := ReduceKeeps(g, states, v.rows, Places(v, stack), path, trees, r, a);
    ExposedState(g, v, stack, r);
    NotFailed(g, v.rows, Places(v, stack), r);
    ExposedGoto(g, states, v, t, stack, r);
  }

  lemma NotFailed(g: Grammar, rows: seq<seq<Action>>, stack: seq<Place>, r: nat)
    requires AfterReduce(g, rows, stack, r) != Failed
    ensures r < |g.rules| && |g.rules[r].rhs| < |stack|
  {
  }

  /** A reduction that goes on. */
  lemma ReduceKeepsStack(g: Grammar, states: seq<State>, v: Numbering, t: Tables, stack: seq<Entry>, path: seq<nat>,
                         trees: seq<Tree>,
                         r: nat, a: nat, act: nat)
    returns (path': seq<nat>, trees': seq<Tree>)
    requires HasTables(g, states, v, t) && StackOk(g, states, v, stack, path, trees)
    requires Reducible(g, states, Places(v, stack), path, r, a)
    requires ReduceCoded(g, v, stack, r, act) && act <= v.C().MaxShiftReduce()
    ensures Continues(g, states, v, stack, r, act, path', trees')
    ensures YieldAll(trees') == YieldAll(trees)
  {
    hide *;
    ParserParts(g, states, v, t);
    StackFacts(g, states, v, stack, path, trees);
    path', trees' := ReduceKeeps(g, states, v.rows, Places(v, stack), path, trees, r, a);
    PushAfterReduce(g, v, stack, r, act);
    ContinuesFrom(g, states, v, stack, trees, r, act, path', trees');
  }

  /** act is the code of the goto that the reduction by r finds. */
  ghost predicate ReduceCoded(g: Grammar, v: Numbering, stack: seq<Entry>, r: nat, act: nat) {
    && ExposedOk(g, v, stack, r)
    && CodeFor(v.C(), v.sorted, act,
               GotoMove(v.rows, v.sorted[stack[|stack| - |g.rules[r].rhs| - 1].stateno], g.rules[r].lhs))
  }

  /** The reduction by r goes on with the reduced stack. */
  ghost predicate Continues(g: Grammar, states: seq<State>, v: Numbering, stack: seq<Entry>, r: nat, act: nat,
                            path': seq<nat>, trees': seq<Tree>) {
    && r < |g.rules| && |g.rules[r].rhs| <= |stack|
    && StackOk(g, states, v, ReducedStack(g, v.C(), stack, r, act), path', trees')
    && AfterReduce(g, v.rows, Places(v, stack), r) == Continue(Places(v, ReducedStack(g, v.C(), stack, r, act)))
  }

  /** The places after the push. */
  ghost predicate PushedAfter(g: Grammar, v: Numbering, stack: seq<Entry>, r: nat, act: nat) {
    && r < |g.rules| && |g.rules[r].rhs| <= |stack|
    && EntriesOk(v, ReducedStack(g, v.C(), stack, r, act))
    && AfterReduce(g, v.rows, Places(v, stack), r) == Continue(Places(v, ReducedStack(g, v.C(), stack, r, act)))
  }

  lemma ContinuesFrom(g: Grammar, states: seq<State>, v: Numbering, stack: seq<Entry>, trees: seq<Tree>, r: nat,
                      act: nat,
                      path': seq<nat>, trees': seq<Tree>)
    requires PushedAfter(g, v, stack, r, act) && Majors(g, stack, trees)
    requires var o := AfterReduce(g, v.rows, Places(v, stack), r);
             o.Continue? ==> StackInv(g, states, o.stack, path', trees') && Replaced(g, trees, r, trees')
    ensures Continues(g, states, v, stack, r, act, path', trees')
    ensures AfterReduce(g, v.rows, Places(v, stack), r).Continue?
  {
    hide Majors, StackInv, Replaced, EntriesOk, AfterReduce;
    MajorsReduce(g, v.C(), stack, trees, r, act, trees');
  }

  lemma PushAfterReduce(g: Grammar, v: Numbering, stack: seq<Entry>, r: nat, act: nat)
    requires v.Ok() && EntriesOk(v, stack) && ReduceCoded(g, v, stack, r, act) && act <= v.C().MaxShiftReduce()
    ensures PushedAfter(g, v, stack, r, act)
  {
    hide Numbering.Ok, EntriesOk, GotoMove, CodeFor, AfterReduce, Stands;
    var n := |stack| - |g.rules[r].rhs|;
    var m := GotoMove(v.rows, v.sorted[stack[n - 1].stateno], g.rules[r].lhs);
    CodeRanges(v, act, m);
    PushedStands(v, act, m);
    PlacesPush(v, stack, n, Entry(StateOf(v.C(), act), g.rules[r].lhs), Pushed(m)[0]);
  }

  lemma MajorsReduce(g: Grammar, c: Codes, stack: seq<Entry>, trees: seq<Tree>, r: nat, act: nat, trees': seq<Tree>)
    requires Majors(g, stack, trees) && r < |g.rules| && |g.rules[r].rhs| <= |stack|
    requires Replaced(g, trees, r, trees')
    ensures Majors(g, ReducedStack(g, c, stack, r, act), trees')
  {
    hide UnitChain;
    var n := |trees| - |g.rules[r].rhs|;
    var stack' := ReducedStack(g, c, stack, r, act);
    assert |stack'| == n + 2 && stack'[n + 1].major == g.rules[r].lhs;
    forall i | 0 <= i < |trees'|
      ensures UnitChain(g, stack'[i + 1].major, Root(g, trees'[i]))
    {
      if i < n {
        assert stack'[i + 1] == stack[i + 1] && trees'[i] == trees'[..n][i] == trees[..n][i];
      }
    }
  }

  // ---------------------------------------------------------------- error reports

  /** The stack that a call with this run leaves. */
  function StackLeft(run: (Effect, seq<Place>, seq<Event>), a: nat): seq<Place> {
    if run.0 == SyntaxError && a == 0 then run.1[..if run.1 == [] then 0 else 1] else run.1
  }

  /** What the calls do when all tokens are handed over, right or wrong. */
  ghost function Effects(g: Grammar, rows: seq<seq<Action>>, stack: seq<Place>, tokens: seq<nat>,
                         fuel: nat): (e: seq<Effect>)
    ensures |e| == |tokens|
    decreases |tokens|
  {
    if tokens == [] then []
    else
      var run := TokenRun(g, rows, stack, tokens[0], fuel);
      [run.0] + Effects(g, rows, StackLeft(run, tokens[0]), tokens[1..], fuel)
  }

  ghost predicate AllEnd(g: Grammar, rows: seq<seq<Action>>, stack: seq<Place>, tokens: seq<nat>, fuel: nat)
    decreases |tokens|
  {
    tokens != [] ==>
      var run := TokenRun(g, rows, stack, tokens[0], fuel);
      run.0 != Unfinished && AllEnd(g, rows, StackLeft(run, tokens[0]), tokens[1..], fuel)
  }

  /** Call i is a syntax error to be reported: it is not within three tokens of an earlier one, counting the
      tokens shifted since; the end of the input starts afresh. */
  ghost predicate IsReported(tokens: seq<nat>, effects: seq<Effect>, i: nat)
    requires i < |effects| <= |tokens|
  {
    effects[i] == SyntaxError && forall j | 0 <= j < i && i - j <= 3 :: !Suppresses(tokens, effects, j, i)
  }

  /** The last call before i that did not shift was j, and it discarded a wrong token. */
  ghost predicate Suppresses(tokens: seq<nat>, effects: seq<Effect>, j: nat, i: nat)
    requires j < i <= |effects| <= |tokens|
  {
    effects[j] == SyntaxError && tokens[j] != 0 && forall k | j < k < i :: effects[k] == TokenShifted
  }

  ghost function ReportCount(tokens: seq<nat>, effects: seq<Effect>, n: nat): nat
    requires n <= |effects| <= |tokens|
  {
    if n == 0 then 0 else ReportCount(tokens, effects, n - 1) + if IsReported(tokens, effects, n - 1) then 1 else 0
  }

  /** In particular the first error of a run is reported. */
  lemma {:induction false} FirstError(tokens: seq<nat>, effects: seq<Effect>, n: nat)
    requires n < |effects| <= |tokens| && effects[n] == SyntaxError
    requires forall i | 0 <= i < n :: effects[i] != SyntaxError
    ensures ReportCount(tokens, effects, n + 1) == 1
  {
    NoneReported(tokens, effects, n);
    assert IsReported(tokens, effects, n);
  }

  lemma {:induction false} NoneReported(tokens: seq<nat>, effects: seq<Effect>, n: nat)
    requires n <= |effects| <= |tokens| && forall i | 0 <= i < n :: effects[i] != SyntaxError
    ensures ReportCount(tokens, effects, n) == 0
  {
    if n > 0 { NoneReported(tokens, effects, n - 1); }
  }

  /** Calls that failed the parse, and that accepted. */
  ghost function Failures(tokens: seq<nat>, effects: seq<Effect>, n: nat): nat
    requires n <= |effects| <= |tokens|
  {
    if n == 0 then 0
    else Failures(tokens, effects, n - 1) + if effects[n - 1] == SyntaxError && tokens[n - 1] == 0 then 1 else 0
  }

  ghost function Acceptances(effects: seq<Effect>, n: nat): nat
    requires n <= |effects|
  {
    if n == 0 then 0 else Acceptances(effects, n - 1) + if effects[n - 1] == InputAccepted then 1 else 0
  }

  /** What yyerrcnt is after n calls. */
  ghost predicate ErrcntAfter(tokens: seq<nat>, effects: seq<Effect>, n: nat, yyerrcnt: int)
    requires n <= |effects| <= |tokens|
  {
    && (forall j | 0 <= j < n && Suppresses(tokens, effects, j, n) :: yyerrcnt == 4 - (n - j))
    && ((forall j | 0 <= j < n :: !Suppresses(tokens, effects, j, n)) ==> yyerrcnt <= 0)
  }

  lemma ErrcntStep(tokens: seq<nat>, effects: seq<Effect>, n: nat, was: int, yyerrcnt: int)
    requires n < |effects| <= |tokens| && ErrcntAfter(tokens, effects, n, was) && effects[n] != Unfinished
    requires effects[n] == TokenShifted ==> yyerrcnt == was - 1
    requires effects[n] == InputAccepted ==> yyerrcnt == -1
    requires effects[n] == SyntaxError ==> yyerrcnt == if tokens[n] == 0 then -1 else 3
    ensures ErrcntAfter(tokens, effects, n + 1, yyerrcnt)
    ensures IsReported(tokens, effects, n) <==> effects[n] == SyntaxError && was <= 0
  {
    var next := n + 1;
    assert Suppresses(tokens, effects, n, next) <==> effects[n] == SyntaxError && tokens[n] != 0;
    forall j | 0 <= j < n
      ensures Suppresses(tokens, effects, j, next) <==>
              effects[n] == TokenShifted && Suppresses(tokens, effects, j, n)
    {
      assert Suppresses(tokens, effects, j, next) ==> effects[n] == TokenShifted;
    }
  }

  // ---------------------------------------------------------------- the parser

  class Parser {
    const g: Grammar
    const t: Tables
    ghost const states: seq<State>
    ghost const v: Numbering

    /** yystack up to yytos, and yyerrcnt. */
    var stack: seq<Entry>
    var yyerrcnt: int

    /** How often the user's %parse_accept, %syntax_error and %parse_failure code ran. */
    var accepts: nat
    var errors: nat
    var failures: nat

    /** The LR(0) states behind the stack, the trees of its symbols, and the tokens shifted since
        the stack was last at its bottom. */
    ghost var path: seq<nat>
    ghost var trees: seq<Tree>
    ghost var shifted: seq<nat>

    ghost predicate Valid()
      reads this
    {
      && HasTables(g, states, v, t)
      && StackOk(g, states, v, stack, path, trees)
      && YieldAll(trees) == shifted
    }

    /** `ParseAlloc`. */
    constructor (g: Grammar, t: Tables, ghost states: seq<State>, ghost v: Numbering)
      requires HasTables(g, states, v, t)
      ensures Valid() && this.g == g && this.t == t && this.states == states && this.v == v
      ensures stack == [Entry(0, 0)] && shifted == [] && accepts == errors == failures == 0 && yyerrcnt == -1
      ensures Places(v, stack) == [At(0)]
    {
      this.g, this.t, this.states, this.v := g, t, states, v;
      stack, yyerrcnt := [Entry(0, 0)], -1;
      accepts, errors, failures := 0, 0, 0;
      path, trees, shifted := [0], [], [];
      StackStart(g, states, v, t);
    }

    /** `yy_shift`. */
    method Shift(newState: nat, major: nat)
      requires Valid() && major < g.nterminal && newState <= v.C().MaxShiftReduce()
      requires CodeFor(v.C(), v.sorted, newState, TopMove(major))
      modifies this`stack, this`path, this`trees, this`shifted
      ensures Valid() && shifted == old(shifted) + [major] && major != 0
      ensures Places(v, stack) == Places(v, old(stack)) + Pushed(old(TopMove(major)))
      ensures old(TopMove(major)).Goto_? || old(TopMove(major)).GotoReduce?
    {
      hide *;
      Sized();
      TopIs(major);
      ghost var q := ShiftKeepsStack(g, states, v, t, stack, path, trees, major, newState);
      CodesKnown();
      stack := stack + [Entry(StateOf(t.c, newState), major)];
      path, trees, shifted := path + [q], trees + [Leaf(major)], shifted + [major];
      MadeValid();
    }

    lemma Sized()
      requires Valid()
      ensures |stack| == |path| == |trees| + 1
      ensures HasTables(g, states, v, t) && StackOk(g, states, v, stack, path, trees)
      ensures YieldAll(trees) == shifted && v.g == g
    {
    }

    lemma MadeValid()
      requires HasTables(g, states, v, t) && StackOk(g, states, v, stack, path, trees) && YieldAll(trees) == shifted
      ensures Valid()
    {
    }

    lemma CodesKnown()
      requires Valid()
      ensures t.c == v.C()
    {
      Sizes(g, states, v, t);
    }

    /** The machine's move on token a. */
    ghost function TopMove(a: nat): Move
      reads this
      requires Valid()
    {
      TokenMove(g, v.rows, Places(v, stack)[|stack| - 1], a)
    }

    lemma TopIs(a: nat)
      requires Valid()
      ensures |stack| > 0 && TopMove(a) == TokenMove(g, v.rows, Places(v, stack)[|stack| - 1], a)
    {
    }

    /** The machine reduces by r on token a. */
    ghost predicate Reduces_(r: nat, a: nat)
      reads this
      requires Valid()
    {
      a < g.nterminal && TopMove(a) == Reduce_(r)
    }

    lemma ReducesTop(r: nat, a: nat)
      requires Valid() && Reduces_(r, a)
      ensures a < g.nterminal && |stack| > 0
      ensures TokenMove(g, v.rows, Places(v, stack)[|stack| - 1], a) == Reduce_(r)
    {
      hide TokenMove, Places;
      TopIs(a);
    }

    lemma ReduceFacts(r: nat, a: nat)
      requires Valid() && Reduces_(r, a)
      ensures Reducible(g, states, Places(v, stack), path, r, a)
      ensures ExposedOk(g, v, stack, r) && r < |g.rules| && |g.rules[r].rhs| < |stack|
      ensures GotoCoded(v, t, stack[|stack| - |g.rules[r].rhs| - 1].stateno, g.rules[r].lhs)
      ensures AfterReduce(g, v.rows, Places(v, stack), r) != Failed
    {
      hide *;
      Sized();
      ParserParts(g, states, v, t);
      StackFacts(g, states, v, stack, path, trees);
      ReducesTop(r, a);
      TopReducible(g, states, v.rows, Places(v, stack), path, trees, a);
      Exposed(g, states, v, t, stack, path, trees, r, a);
    }

    /** What the code of the goto says. */
    lemma GotoFacts(r: nat, a: nat, act: int)
      requires Valid() && Reduces_(r, a) && r < |g.rules| && |g.rules[r].rhs| < |stack|
      requires var s := stack[|stack| - |g.rules[r].rhs| - 1].stateno;
               ReduceDefined(t, s, g.rules[r].lhs) && act == FindReduceAction(t, s, g.rules[r].lhs)
      ensures act >= 0 && t.c == v.C()
      ensures act <= t.c.MaxShiftReduce() ==> ReduceCoded(g, v, stack, r, act)
      ensures act > t.c.MaxShiftReduce() ==>
              act == t.c.AcceptAction() && AfterReduce(g, v.rows, Places(v, stack), r).Accepted?
    {
      hide *;
      Sized();
      ReduceFacts(r, a);
      CodesKnown();
      ParserParts(g, states, v, t);
      GotoOutcomes(g, v, t, stack, r, act);
    }

    /** `yy_reduce`. */
    method Reduce(yyruleno: nat, ghost a: nat) returns (accepted: bool)
      requires Valid() && Reduces_(yyruleno, a)
      modifies this
      ensures Valid()
      ensures yyruleno < |g.rules|
      ensures accepted ==> AfterReduce(g, v.rows, Places(v, old(stack)), yyruleno) == Accepted(Places(v, stack))
      ensures accepted ==> a == 0 && Derives(g, g.start, old(shifted))
      ensures accepted ==> |stack| == 1 && shifted == [] && accepts == old(accepts) + 1 && yyerrcnt == -1
      ensures !accepted ==> AfterReduce(g, v.rows, Places(v, old(stack)), yyruleno) == Continue(Places(v, stack))
      ensures !accepted ==> |stack| > 1 && shifted == old(shifted)
      ensures !accepted ==> accepts == old(accepts) && yyerrcnt == old(yyerrcnt)
      ensures errors == old(errors) && failures == old(failures)
    {
      hide *;
      Sized();
      ReduceFacts(yyruleno, a);
      var yygoto, yysize := g.rules[yyruleno].lhs, |g.rules[yyruleno].rhs|;
      var exposed := stack[|stack| - 1 - yysize].stateno;
      GotoIsDefined(exposed, yygoto);
      var yyact := FindReduceAction(t, exposed, yygoto);
      GotoFacts(yyruleno, a, yyact);
      if yyact <= t.c.MaxShiftReduce() {
        ghost var p, ts := ReduceKeepsStack(g, states, v, t, stack, path, trees, yyruleno, a, yyact);
        ContinuesParts(g, states, v, stack, yyruleno, yyact, p, ts);
        stack := stack[..|stack| - yysize] + [Entry(StateOf(t.c, yyact), yygoto)];
        path, trees := p, ts;
        MadeValid();
        Sized();
        accepted := false;
      } else {
        assert yyact == t.c.AcceptAction();
        AcceptFacts(yyruleno, a);
        BottomOk(g, states, v, stack, path, trees);
        NoYield();
        stack := stack[..|stack| - yysize];
        path, trees, shifted := path[..1], [], [];
        Accept();
        MadeValid();
        accepted := true;
      }
    }

    lemma AcceptFacts(r: nat, a: nat)
      requires Valid() && Reduces_(r, a) && AfterReduce(g, v.rows, Places(v, stack), r).Accepted?
      ensures r < |g.rules| && |stack| - |g.rules[r].rhs| == 1 && a == 0 && Derives(g, g.start, shifted)
      ensures AfterReduce(g, v.rows, Places(v, stack), r) == Accepted(Places(v, stack)[..1])
    {
      hide HasTables, StackOk, Reducible, TokenMove, GotoMove, ExposedOk, GotoCoded, Canonical, SoundRows, Numbering.Ok;
      ReduceFacts(r, a);
      ParserParts(g, states, v, t);
      StackFacts(g, states, v, stack, path, trees);
      var path', trees' := ReduceKeeps(g, states, v.rows, Places(v, stack), path, trees, r, a);
      AcceptedBase(g, v.rows, Places(v, stack), r);
    }

    lemma NoYield()
      ensures YieldAll([]) == []
    {
    }

    lemma GotoIsDefined(s: nat, x: nat)
      requires GotoCoded(v, t, s, x)
      ensures ReduceDefined(t, s, x)
    {
    }

    /** `yy_parse_failed`: everything above the bottom is popped. */
    method ParseFailed()
      requires Valid()
      modifies this`stack, this`path, this`trees, this`shifted, this`failures
      ensures Valid() && |stack| == 1 && shifted == [] && failures == old(failures) + 1
      ensures Places(v, stack) == Places(v, old(stack))[..1]
    {
      hide *;
      Sized();
      BottomOk(g, states, v, stack, path, trees);
      ghost var was := stack;
      while |stack| > 1
        invariant 0 < |stack| <= |was| && stack == was[..|stack|]
        modifies this`stack
        decreases |stack|
      {
        stack := stack[..|stack| - 1];
      }
      path, trees, shifted := path[..1], [], [];
      failures := failures + 1;
      MadeValid();
    }

    /** What a call did to the parser: with the token shifted, accepted, wrong or still looked at. */
    twostate predicate Did(a: nat, effect: Effect)
      reads this
    {
      match effect
      case TokenShifted =>
        a != 0 && shifted == old(shifted) + [a] && yyerrcnt == old(yyerrcnt) - 1
        && accepts == old(accepts) && errors == old(errors) && failures == old(failures)
      case InputAccepted =>
        a == 0 && |stack| == 1 && Derives(g, g.start, old(shifted)) && shifted == [] && yyerrcnt == -1
        && accepts == old(accepts) + 1 && errors == old(errors) && failures == old(failures)
      case SyntaxError =>
        && accepts == old(accepts) && errors == old(errors) + (if old(yyerrcnt) <= 0 then 1 else 0)
        && (if a == 0 then |stack| == 1 && shifted == [] && yyerrcnt == -1 && failures == old(failures) + 1
            else shifted == old(shifted) && yyerrcnt == 3 && failures == old(failures))
      case Unfinished =>
        shifted == old(shifted) && yyerrcnt == old(yyerrcnt)
        && accepts == old(accepts) && errors == old(errors) && failures == old(failures)
    }

    /** The stack is where the machine's run ends; only a failed parse clears it. */
    ghost predicate Follows(run: (Effect, seq<Place>, seq<Event>), a: nat)
      reads this
    {
      Places(v, stack) == StackLeft(run, a)
    }

    lemma ActionKnown(a: nat)
      requires Valid() && Packable(v) && a < g.nterminal
      ensures |stack| > 0 && |t.action| == |t.lookahead|
      ensures var s := stack[|stack| - 1].stateno; s < t.c.MinReduce() ==> s < |t.shiftOfst| && s < |t.dflt|
      ensures CodeFor(v.C(), v.sorted, FindShiftAction(t, stack[|stack| - 1].stateno, a), TopMove(a))
    {
      hide HasTables, Packable, StackOk, FindShiftAction, CodeFor, TokenMove;
      Sized();
      StackSize(g, states, v, stack, path, trees);
      ShiftAction(g, states, v, t, stack[|stack| - 1].stateno, Places(v, stack)[|stack| - 1], a);
    }

    /** The ranges of the action codes tell the moves apart; a token never accepts by itself. */
    lemma ActionFacts(a: nat, act: int)
      requires Valid() && a < g.nterminal && CodeFor(v.C(), v.sorted, act, TopMove(a))
      ensures act >= 0 && t.c == v.C()
      ensures act <= t.c.MaxShiftReduce() ==> TopMove(a).Goto_? || TopMove(a).GotoReduce?
      ensures t.c.MaxShiftReduce() < act <= t.c.MaxReduce() ==>
              act >= t.c.MinReduce() && Reduces_(act - t.c.MinReduce(), a)
      ensures act > t.c.MaxReduce() ==> act == t.c.ErrorAction() && TopMove(a) == Error_
    {
      hide HasTables, StackOk, CodeFor, TokenMove;
      Sized();
      CodesKnown();
      ParserParts(g, states, v, t);
      CodeRanges(v, act, TopMove(a));
      StackFacts(g, states, v, stack, path, trees);
      NeverAccepts(g, states, v.rows, Places(v, stack), path, trees, a);
    }

    /** One iteration of the loop of `Parse`. */
    method Step(yymajor: nat) returns (effect: Effect)
      requires Valid() && Packable(v) && yymajor < g.nterminal
      modifies this
      ensures Valid() && Did(yymajor, effect)
      ensures effect == TokenRun(g, v.rows, Places(v, old(stack)), yymajor, 1).0
      ensures Follows(TokenRun(g, v.rows, Places(v, old(stack)), yymajor, 1), yymajor)
      ensures effect == Unfinished ==> |stack| > 1
    {
      hide HasTables, Packable, StackOk, TokenMove, AfterReduce, TokenRun, Places, FindShiftAction, CodeFor, Derives;
      Sized();
      ActionKnown(yymajor);
      RunOne(g, v.rows, Places(v, stack), yymajor);
      var yyact := FindShiftAction(t, stack[|stack| - 1].stateno, yymajor);
      ActionFacts(yymajor, yyact);
      if yyact <= t.c.MaxShiftReduce() {
        Shift(yyact, yymajor);
        yyerrcnt := yyerrcnt - 1;
        effect := TokenShifted;
      } else if yyact <= t.c.MaxReduce() {
        var accepted := Reduce(yyact - t.c.MinReduce(), yymajor);
        effect := if accepted then InputAccepted else Unfinished;
      } else {
        assert yyact == t.c.ErrorAction();
        Wrong(yymajor);
        effect := SyntaxError;
      }
    }

    /** The error branch, without an error symbol: report, discard the token, and at the end of the
        input fail. */
    method Wrong(yymajor: nat)
      requires Valid()
      modifies this
      ensures Valid() && Did(yymajor, SyntaxError)
      ensures Places(v, stack) == if yymajor == 0 then Places(v, old(stack))[..1] else Places(v, old(stack))
    {
      hide HasTables, StackOk, Places;
      if yyerrcnt <= 0 { errors := errors + 1; }
      yyerrcnt := 3;
      if yymajor == 0 {
        ParseFailed();
        yyerrcnt := -1;
      }
    }

    /** `Parse`, for a token on which the machine's run ends, after no more than `fuel` steps: the loop
        ends too, with the stack and the effect of that run, and when it accepts, the tokens shifted so
        far are derived from the start symbol. */
    method Parse(yymajor: nat, ghost fuel: nat) returns (effect: Effect, ghost events: seq<Event>)
      requires Valid() && Packable(v) && yymajor < g.nterminal
      requires TokenRun(g, v.rows, Places(v, stack), yymajor, fuel).0 != Unfinished
      modifies this
      ensures Valid() && Did(yymajor, effect)
      ensures effect == TokenRun(g, v.rows, Places(v, old(stack)), yymajor, fuel).0
      ensures events == TokenRun(g, v.rows, Places(v, old(stack)), yymajor, fuel).2
      ensures Follows(TokenRun(g, v.rows, Places(v, old(stack)), yymajor, fuel), yymajor)
    {
      hide Valid, Packable, TokenRun, Places, Derives;
      ghost var run := TokenRun(g, v.rows, Places(v, stack), yymajor, fuel);
      ghost var left := fuel;
      effect, events := Unfinished, [];
      while effect == Unfinished
        invariant Valid() && Did(yymajor, effect)
        invariant effect == Unfinished ==> Remains(run, events, TokenRun(g, v.rows, Places(v, stack), yymajor, left))
        invariant effect != Unfinished ==> effect == run.0 && events == run.2 && Follows(run, yymajor)
        decreases left, effect == Unfinished
      {
        ghost var before := Places(v, stack);
        RunNone(g, v.rows, before, yymajor);
        RunStep(g, v.rows, before, yymajor, left);
        ghost var one := TokenRun(g, v.rows, before, yymajor, 1);
        effect := Step(yymajor);
        events := events + one.2;
        left := left - 1;
      }
    }

    /** What is left of a run. */
    ghost predicate Remains(run: (Effect, seq<Place>, seq<Event>), events: seq<Event>,
                            rest: (Effect, seq<Place>, seq<Event>)) {
      run.0 == rest.0 && run.1 == rest.1 && run.2 == events + rest.2
    }

    /** A client that hands over the tokens one by one and then "$", and stops at the first call
        that does not take its token.  It is told that the input is accepted exactly when the
        machine accepts it, and then the input is derived from the start symbol. */
    method Feed(tokens: seq<nat>, ghost fuel: nat) returns (ok: bool, ghost events: seq<Event>)
      requires Valid() && Packable(v) && Tokenized(g, tokens) && FeedEnds(g, v.rows, Places(v, stack), tokens, fuel)
      modifies this
      ensures Valid()
      ensures (ok, events) == FeedAll(g, v.rows, Places(v, old(stack)), tokens, fuel)
      ensures ok ==> Derives(g, g.start, old(shifted) + tokens)
    {
      hide Valid, Packable, TokenRun, Places, Derives;
      EndToken();
      ghost var start := Places(v, stack);
      events := [];
      assert tokens[0..] == tokens && forall e: seq<Event> :: [] + e == e;
      for i := 0 to |tokens|
        invariant Valid() && shifted == old(shifted) + tokens[..i]
        invariant FeedEnds(g, v.rows, Places(v, stack), tokens[i..], fuel)
        invariant var rest := FeedAll(g, v.rows, Places(v, stack), tokens[i..], fuel);
                  FeedAll(g, v.rows, start, tokens, fuel) == (rest.0, events + rest.1)
      {
        assert tokens[i..][0] == tokens[i] && tokens[i..][1..] == tokens[i + 1..]
               && tokens[..i + 1] == tokens[..i] + [tokens[i]];
        var effect; ghost var step;
        effect, step := Parse(tokens[i], fuel);
        assert forall e: seq<Event> :: events + (step + e) == (events + step) + e;
        events := events + step;
        if effect != TokenShifted {
          return false, events;
        }
      }
      assert tokens[|tokens|..] == [] && tokens[..|tokens|] == tokens;
      var effect; ghost var step;
      effect, step := Parse(0, fuel);
      events := events + step;
      ok := effect == InputAccepted;
    }

    /** A client that hands over all tokens, whatever becomes of them, and any number of inputs one after the
        other.  Every error is reported but those within three tokens of another. */
    method FeedOn(tokens: seq<nat>, ghost fuel: nat) returns (effects: seq<Effect>)
      requires Valid() && Packable(v) && Tokenized(g, tokens) && AllEnd(g, v.rows, Places(v, stack), tokens, fuel)
      requires yyerrcnt <= 0
      modifies this
      ensures Valid() && effects == Effects(g, v.rows, Places(v, old(stack)), tokens, fuel) && |effects| == |tokens|
      ensures errors == old(errors) + ReportCount(tokens, effects, |tokens|)
      ensures failures == old(failures) + Failures(tokens, effects, |tokens|)
      ensures accepts == old(accepts) + Acceptances(effects, |tokens|)
    {
      hide Valid, Packable, TokenRun, Places, Derives, StackLeft, ReportCount, Failures, Acceptances, ErrcntAfter;
      ghost var all := Effects(g, v.rows, Places(v, stack), tokens, fuel);
      NothingYet(tokens, all, yyerrcnt);
      effects := [];
      assert tokens[0..] == tokens;
      for i := 0 to |tokens|
        invariant Valid() && effects == all[..i] && ErrcntAfter(tokens, all, i, yyerrcnt)
        invariant AllEnd(g, v.rows, Places(v, stack), tokens[i..], fuel)
        invariant all[i..] == Effects(g, v.rows, Places(v, stack), tokens[i..], fuel)
        invariant errors == old(errors) + ReportCount(tokens, all, i)
        invariant failures == old(failures) + Failures(tokens, all, i)
        invariant accepts == old(accepts) + Acceptances(all, i)
      {
        assert tokens[i..][0] == tokens[i] && tokens[i..][1..] == tokens[i + 1..];
        ghost var run, was := TokenRun(g, v.rows, Places(v, stack), tokens[i], fuel), yyerrcnt;
        assert all[i..][0] == all[i] && all[i..][1..] == all[i + 1..];
        var effect; ghost var events;
        effect, events := Parse(tokens[i], fuel);
        effects := effects + [effect];
        ErrcntStep(tokens, all, i, was, yyerrcnt);
        OneMoreCall(tokens, all, i);
      }
    }

    lemma EndToken()
      requires Valid()
      ensures 0 < g.nterminal
    {
    }

    /** `yy_accept`, which asserts that the stack is at its bottom. */
    method Accept()
      requires |stack| == 1
      modifies this`yyerrcnt, this`accepts
      ensures yyerrcnt == -1 && accepts == old(accepts) + 1
    {
      yyerrcnt := -1;
      assert |stack| == 1;
      accepts := accepts + 1;
    }
  }

  lemma NothingYet(tokens: seq<nat>, effects: seq<Effect>, yyerrcnt: int)
    requires |effects| <= |tokens| && yyerrcnt <= 0
    ensures ErrcntAfter(tokens, effects, 0, yyerrcnt)
    ensures ReportCount(tokens, effects, 0) == Failures(tokens, effects, 0) == Acceptances(effects, 0) == 0
  {
  }

  lemma OneMoreCall(tokens: seq<nat>, effects: seq<Effect>, n: nat)
    requires n < |effects| <= |tokens|
    ensures ReportCount(tokens, effects, n + 1) ==
            ReportCount(tokens, effects, n) + if IsReported(tokens, effects, n) then 1 else 0
    ensures Failures(tokens, effects, n + 1) ==
            Failures(tokens, effects, n) + if effects[n] == SyntaxError && tokens[n] == 0 then 1 else 0
    ensures Acceptances(effects, n + 1) == Acceptances(effects, n) + if effects[n] == InputAccepted then 1 else 0
  {
  }

  lemma NeverAccepts(g: Grammar, states: seq<State>, rows: seq<seq<Action>>, stack: seq<Place>, path: seq<nat>,
                     trees: seq<Tree>, a: nat)
    requires SoundRows(g, states, rows) && StackInv(g, states, stack, path, trees) && a < g.nterminal
    ensures TokenMove(g, rows, stack[|stack| - 1], a) != Accept_
  {
    match stack[|stack| - 1]
    case Pending(r) =>
    case At(s) => assert SoundOnToken(g, states, s, a, TokenMove(g, rows, At(s), a));
  }

  /** One step of the machine, by its move. */
  ghost predicate OneStep(g: Grammar, rows: seq<seq<Action>>, stack: seq<Place>, a: nat, m: Move,
                          run: (Effect, seq<Place>, seq<Event>)) {
    if m.Goto_? || m.GotoReduce? then run == (TokenShifted, stack + Pushed(m), [Shifted(a)])
    else if m.Reduce_? then
      var o := AfterReduce(g, rows, stack, m.r);
      && (o.Continue? ==> run.0 == Unfinished && run.1 == o.stack)
      && (o.Accepted? ==> run.0 == InputAccepted && run.1 == o.stack)
    else run == (SyntaxError, stack, [])
  }

  lemma RunOne(g: Grammar, rows: seq<seq<Action>>, stack: seq<Place>, a: nat)
    requires stack != []
    ensures OneStep(g, rows, stack, a, TokenMove(g, rows, stack[|stack| - 1], a), TokenRun(g, rows, stack, a, 1))
  {
    hide TokenMove, AfterReduce, Pushed;
  }

  lemma RunNone(g: Grammar, rows: seq<seq<Action>>, stack: seq<Place>, a: nat)
    ensures TokenRun(g, rows, stack, a, 0) == (Unfinished, stack, [])
  {
  }

  lemma GotoOutcomes(g: Grammar, v: Numbering, t: Tables, stack: seq<Entry>, r: nat, act: int)
    requires v.Ok() && t.c == v.C() && ExposedOk(g, v, stack, r) && r < |g.rules| && |g.rules[r].rhs| < |stack|
    requires var s := stack[|stack| - |g.rules[r].rhs| - 1].stateno;
             GotoCoded(v, t, s, g.rules[r].lhs) && act == FindReduceAction(t, s, g.rules[r].lhs)
    requires AfterReduce(g, v.rows, Places(v, stack), r) != Failed
    ensures act >= 0
    ensures act <= t.c.MaxShiftReduce() ==> ReduceCoded(g, v, stack, r, act)
    ensures act > t.c.MaxShiftReduce() ==>
            act == t.c.AcceptAction() && AfterReduce(g, v.rows, Places(v, stack), r).Accepted?
  {
    hide Numbering.Ok, CodeFor, GotoMove, AfterReduce, Stands, ReduceDefined, FindReduceAction;
    var n := |stack| - |g.rules[r].rhs|;
    var m := GotoMove(v.rows, v.sorted[stack[n - 1].stateno], g.rules[r].lhs);
    CodeRanges(v, act, m);
    NoReduceAfter(v.rows, v.sorted[stack[n - 1].stateno], g.rules[r].lhs, Places(v, stack)[..n]);
  }

  lemma AcceptedBase(g: Grammar, rows: seq<seq<Action>>, stack: seq<Place>, r: nat)
    requires AfterReduce(g, rows, stack, r).Accepted?
    ensures r < |g.rules| && |g.rules[r].rhs| < |stack|
    ensures |AfterReduce(g, rows, stack, r).stack| == |stack| - |g.rules[r].rhs|
  {
    hide GotoMove;
  }

  /** Back to the bottom of the stack. */
  lemma BottomOk(g: Grammar, states: seq<State>, v: Numbering, stack: seq<Entry>, path: seq<nat>, trees: seq<Tree>)
    requires StackOk(g, states, v, stack, path, trees)
    ensures |stack| == |path| > 0 && StackOk(g, states, v, stack[..1], path[..1], [])
    ensures Places(v, stack[..1]) == Places(v, stack)[..1]
    ensures YieldAll([]) == [] && (|stack| > 1 ==> Places(v, stack)[..1] == [At(0)])
  {
    hide Numbering.Ok;
    var p := Places(v, stack);
    assert Places(v, stack[..1]) == p[..1];
    BottomInv(g, states, p, path, trees);
  }

  lemma BottomInv(g: Grammar, states: seq<State>, stack: seq<Place>, path: seq<nat>, trees: seq<Tree>)
    requires StackInv(g, states, stack, path, trees)
    ensures StackInv(g, states, stack[..1], path[..1], [])
    ensures |stack| > 1 ==> stack[..1] == [At(0)]
  {
  }

  /** After a reduction the goto is a shift, a shift-reduce or the acceptance. */
  lemma NoReduceAfter(rows: seq<seq<Action>>, s: nat, x: nat, base: seq<Place>)
    ensures AfterGoto(base, GotoMove(rows, s, x)) != Failed ==>
            !GotoMove(rows, s, x).Reduce_? && !GotoMove(rows, s, x).Error_?
    ensures GotoMove(rows, s, x).Accept_? ==> AfterGoto(base, GotoMove(rows, s, x)).Accepted?
  {
    hide GotoMove;
  }

  lemma ContinuesParts(g: Grammar, states: seq<State>, v: Numbering, stack: seq<Entry>, r: nat, act: nat,
                       path': seq<nat>, trees': seq<Tree>)
    requires Continues(g, states, v, stack, r, act, path', trees')
    ensures r < |g.rules| && |g.rules[r].rhs| <= |stack|
    ensures var stack' := stack[..|stack| - |g.rules[r].rhs|] + [Entry(StateOf(v.C(), act), g.rules[r].lhs)];
            && StackOk(g, states, v, stack', path', trees')
            && AfterReduce(g, v.rows, Places(v, stack), r) == Continue(Places(v, stack'))
  {
    hide StackOk, AfterReduce;
  }
}
