/** Compression preserves parsing: an accepting run of the driver on the rows of `FindActions` is
    also one on the compressed rows, up to reductions by unit rules without code. */
module Simulation {
  import opened Grammars
  import opened Actions
  import opened Machines
  import opened Compression
  import opened SoundTables

  // ---------------------------------------------------------------- traces

  /** A reduction that compression may skip. */
  predicate UnitEvent(g: Grammar, e: Event) {
    && e.Reduced? && e.r < |g.rules|
    && g.rules[e.r].noCode && |g.rules[e.r].rhs| == 1 && g.Nonterminal(g.rules[e.r].rhs[0])
  }

  /** u is t without some of its skippable reductions. */
  ghost predicate Thinned(g: Grammar, t: seq<Event>, u: seq<Event>)
    decreases |t|
  {
    if t == [] then u == []
    else
      || (u != [] && u[0] == t[0] && Thinned(g, t[1..], u[1..]))
      || (UnitEvent(g, t[0]) && Thinned(g, t[1..], u))
  }

  // ---------------------------------------------------------------- matching stacks

  predicate Shiftable(row: seq<Action>, x: nat) {
    LiveOn(row, x) != [] && LiveOn(row, x)[0].typ == SHIFT
  }

  function Target(row: seq<Action>, x: nat): nat {
    if LiveOn(row, x) != [] then LiveOn(row, x)[0].x else 0
  }

  ghost predicate AutoState(b: Build, q: nat) {
    q < |b.auto| && q < |b.best| && b.auto[q] && b.best[q] >= 0
  }

  /** The same state on top, or in its place the reduction it is bound to make. */
  ghost predicate Same(b: Build, p0: Place, p1: Place) {
    p0.At? && (p1 == p0 || (AutoState(b, p0.s) && p1 == Pending(b.best[p0.s])))
  }

  /** In state s the path p is a sequence of unit reductions that the original driver makes one by
      one: from the goto of its first symbol to that of its last. */
  ghost predicate Chain(b: Build, s: nat, p: seq<nat>) {
    && p != [] && s < |b.rows|
    && (forall i | 0 <= i < |p| :: Shiftable(b.rows[s], p[i]))
    && (forall i | 0 < i < |p| :: ChainStep(b, s, p[i - 1], p[i]))
  }

  ghost predicate ChainStep(b: Build, s: nat, x: nat, y: nat)
    requires s < |b.rows|
  {
    var q := Target(b.rows[s], x);
    AutoState(b, q) && UnitRule(b.g, b.best[q], x, y)
  }

  /** The original driver has reached p[0], the compressed one p's last symbol. */
  ghost predicate Lags(b: Build, s: nat, p: seq<nat>, p0: Place, p1: Place) {
    && Chain(b, s, p)
    && p0 == At(Target(b.rows[s], p[0]))
    && Same(b, At(Target(b.rows[s], p[|p| - 1])), p1)
  }

  ghost predicate SameBelow(st0: seq<Place>, st1: seq<Place>) {
    && |st0| == |st1| > 0
    && forall i | 0 <= i < |st0| - 1 :: st0[i] == st1[i] && st0[i].At?
  }

  ghost predicate LagsOnTop(b: Build, st0: seq<Place>, st1: seq<Place>, p: seq<nat>) {
    && SameBelow(st0, st1) && |st0| > 1
    && Lags(b, st0[|st0| - 2].s, p, st0[|st0| - 1], st1[|st1| - 1])
  }

  ghost predicate InStep(b: Build, st0: seq<Place>, st1: seq<Place>) {
    SameBelow(st0, st1) && Same(b, st0[|st0| - 1], st1[|st1| - 1])
  }

  ghost predicate Matches(b: Build, st0: seq<Place>, st1: seq<Place>) {
    InStep(b, st0, st1) || exists p :: LagsOnTop(b, st0, st1, p)
  }

  // ---------------------------------------------------------------- the moves of the original driver

  /** An action of the original row on a token. */
  lemma OriginalMove(b: Build, q: nat, a: nat)
    requires b.Ok() && q < |b.rows| && a < b.g.nterminal
    ensures TokenMove(b.g, b.rows, At(q), a) ==
              if LiveOn(b.rows[q], a) != [] then MoveOf(LiveOn(b.rows[q], a)[0]) else Error_
    ensures LiveOn(b.rows[q], a) != [] ==> LiveOn(b.rows[q], a)[0].typ in {SHIFT, REDUCE}
  {
    Facts(b, q);
    NoDefaultYet(b.g, b.states, b.fws, q, b.rows[q]);
    if LiveOn(b.rows[q], a) != [] { LiveFactOf(b, q, a); }
  }

  /** An automatic state can only reduce by its rule. */
  lemma AutoMove(b: Build, q: nat, a: nat)
    requires b.Ok() && AutoState(b, q) && q < |b.rows| && a < b.g.nterminal
    ensures LiveOn(b.rows[q], a) != [] ==> Reduces(LiveOn(b.rows[q], a)[0], b.best[q])
  {
    Facts(b, q);
    OriginalMove(b, q, a);
    if LiveOn(b.rows[q], a) != [] { assert LiveOn(b.rows[q], a)[0] in b.rows[q]; }
  }

  lemma AutoReduces(b: Build, q: nat, a: nat)
    requires b.Ok() && AutoState(b, q) && q < |b.rows| && a < b.g.nterminal
    ensures TokenMove(b.g, b.rows, At(q), a) == Error_ || TokenMove(b.g, b.rows, At(q), a) == Reduce_(b.best[q])
  {
    OriginalMove(b, q, a);
    AutoMove(b, q, a);
  }

  lemma AfterUnit(b: Build, stack: seq<Place>, r: nat, y: nat)
    requires |stack| > 1 && stack[|stack| - 2].At? && stack[|stack| - 2].s < |b.rows|
    requires r < |b.g.rules| && |b.g.rules[r].rhs| == 1 && b.g.rules[r].lhs == y
    requires Shiftable(b.rows[stack[|stack| - 2].s], y)
    ensures AfterReduce(b.g, b.rows, stack, r)
            == Continue(stack[..|stack| - 1] + [At(Target(b.rows[stack[|stack| - 2].s], y))])
  {
  }

  lemma LagsTail(b: Build, st0: seq<Place>, st1: seq<Place>, p: seq<nat>)
    requires LagsOnTop(b, st0, st1, p) && |p| > 1
    ensures LagsOnTop(b, st0[..|st0| - 1] + [At(Target(b.rows[st0[|st0| - 2].s], p[1]))], st1, p[1..])
  {
    hide Chain, Same;
    assert Chain(b, st0[|st0| - 2].s, p);
    ChainTail(b, st0[|st0| - 2].s, p);
  }

  /** The next state along a chain, and the rule it is bound to reduce by. */
  lemma ChainHead(b: Build, s: nat, p: seq<nat>)
    requires Chain(b, s, p) && |p| > 1
    ensures ChainStep(b, s, p[0], p[1]) && Shiftable(b.rows[s], p[1])
  {
    assert ChainStep(b, s, p[1 - 1], p[1]);
  }

  /** While it lags behind, the original driver makes the next unit reduction, or fails. */
  lemma CatchUp(b: Build, st0: seq<Place>, st1: seq<Place>, p: seq<nat>, a: nat) returns (st: seq<Place>)
    requires b.Ok() && LagsOnTop(b, st0, st1, p) && |p| > 1 && a < b.g.nterminal
    requires TokenMove(b.g, b.rows, st0[|st0| - 1], a) != Error_
    ensures var q := Target(b.rows[st0[|st0| - 2].s], p[0]);
            && q < |b.best| && b.best[q] >= 0
            && TokenMove(b.g, b.rows, st0[|st0| - 1], a) == Reduce_(b.best[q]) && UnitEvent(b.g, Reduced(b.best[q]))
            && AfterReduce(b.g, b.rows, st0, b.best[q]) == Continue(st)
    ensures LagsOnTop(b, st, st1, p[1..])
  {
    var s := st0[|st0| - 2].s;
    var q := Target(b.rows[s], p[0]);
    st := st0[..|st0| - 1] + [At(Target(b.rows[s], p[1]))];
    LagsTail(b, st0, st1, p);
    ChainHead(b, s, p);
    SizesOf(b);
    assert st0[|st0| - 1] == At(q) && st0[|st0| - 2].At? && |b.rows| == |b.auto|;
    hide Build.Ok, LagsOnTop, TokenMove, AfterReduce, Target, Shiftable;
    AutoReduces(b, q, a);
    AfterUnit(b, st0, b.best[q], p[1]);
  }

  lemma ChainTail(b: Build, s: nat, p: seq<nat>)
    requires Chain(b, s, p) && |p| > 1
    ensures Chain(b, s, p[1..])
  {
    var t := p[1..];
    forall i | 0 < i < |t|
      ensures ChainStep(b, s, t[i - 1], t[i])
    {
      assert ChainStep(b, s, p[i], p[i + 1]) by { assert ChainStep(b, s, p[i + 1 - 1], p[i + 1]); }
    }
  }

  // ---------------------------------------------------------------- moves in step

  /** With the same state on top both drivers make the same move, except that a shift may already
      promise the reduction of the state it goes to. */
  lemma SameMove(b: Build, q: nat, p1: Place, a: nat)
    requires b.Ok() && Same(b, At(q), p1) && a < b.g.nterminal
    ensures var m0, m1 := TokenMove(b.g, b.rows, At(q), a), TokenMove(b.g, b.res, p1, a);
            && (m0.Goto_? || m0.Reduce_? || m0.Error_?)
            && (m0.Goto_? ==> p1 == At(q) && m1 == MoveOf(Fold(Action(a, SHIFT, m0.q), b.auto, b.best)))
            && (m0.Reduce_? ==> m1 == m0 && (p1 == At(q) || (m0.r < |b.g.rules| && b.g.rules[m0.r].rhs != [])))
  {
    hide Build.Ok, LiveOn;
    SizesOf(b);
    if q < |b.rows| {
      OriginalMove(b, q, a);
      if p1 == At(q) {
        CompressedMove(b, q, a);
      } else {
        AutoMove(b, q, a);
        AutoBlind(b, q);
      }
    }
  }

  lemma FoldedPush(b: Build, a: nat, q: nat)
    requires forall s | 0 <= s < |b.auto| && b.auto[s] :: s < |b.best| && b.best[s] >= 0
    ensures var m := MoveOf(Fold(Action(a, SHIFT, q), b.auto, b.best));
            (m.Goto_? || m.GotoReduce?) && |Pushed(m)| == 1 && Same(b, At(q), Pushed(m)[0])
  {
  }

  lemma AutosHaveBest(b: Build)
    requires b.Ok()
    ensures forall s | 0 <= s < |b.auto| && b.auto[s] :: s < |b.best| && b.best[s] >= 0
  {
    forall s | 0 <= s < |b.auto| && b.auto[s]
      ensures s < |b.best| && b.best[s] >= 0
    {
      AutoBlind(b, s);
    }
  }

  /** Pushing matching entries on stacks that agree. */
  lemma PushInStep(b: Build, st0: seq<Place>, st1: seq<Place>, p0: Place, p1: Place)
    requires |st0| == |st1| && (forall i | 0 <= i < |st0| :: st0[i] == st1[i] && st0[i].At?) && Same(b, p0, p1)
    ensures InStep(b, st0 + [p0], st1 + [p1])
  {
    hide AutoState;
  }

  lemma ShiftInStep(b: Build, st0: seq<Place>, st1: seq<Place>, a: nat)
    requires b.Ok() && InStep(b, st0, st1) && a < b.g.nterminal
    requires TokenMove(b.g, b.rows, st0[|st0| - 1], a).Goto_?
    ensures var m1 := TokenMove(b.g, b.res, st1[|st1| - 1], a);
            && (m1.Goto_? || m1.GotoReduce?)
            && InStep(b, st0 + Pushed(TokenMove(b.g, b.rows, st0[|st0| - 1], a)), st1 + Pushed(m1))
  {
    ShiftMoves(b, st0, st1, a);
    AutosHaveBest(b);
    hide *;
    var m0, m1 := TokenMove(b.g, b.rows, st0[|st0| - 1], a), TokenMove(b.g, b.res, st1[|st1| - 1], a);
    FoldedPush(b, a, m0.q);
    PushInStep(b, st0, st1, At(m0.q), Pushed(m1)[0]);
    assert Pushed(m1) == [Pushed(m1)[0]];
  }

  lemma ShiftMoves(b: Build, st0: seq<Place>, st1: seq<Place>, a: nat)
    requires b.Ok() && InStep(b, st0, st1) && a < b.g.nterminal
    requires TokenMove(b.g, b.rows, st0[|st0| - 1], a).Goto_?
    ensures forall i | 0 <= i < |st0| :: st0[i] == st1[i] && st0[i].At?
    ensures var m0 := TokenMove(b.g, b.rows, st0[|st0| - 1], a);
            && TokenMove(b.g, b.res, st1[|st1| - 1], a) == MoveOf(Fold(Action(a, SHIFT, m0.q), b.auto, b.best))
            && Pushed(m0) == [At(m0.q)]
  {
    hide *;
    InStepTops(b, st0, st1);
    PushedGoto(TokenMove(b.g, b.rows, st0[|st0| - 1], a));
    SameMove(b, st0[|st0| - 1].s, st1[|st1| - 1], a);
  }

  lemma InStepTops(b: Build, st0: seq<Place>, st1: seq<Place>)
    requires InStep(b, st0, st1)
    ensures |st0| == |st1| > 0 && st0[|st0| - 1].At? && Same(b, st0[|st0| - 1], st1[|st1| - 1])
    ensures forall i | 0 <= i < |st0| - 1 :: st0[i] == st1[i] && st0[i].At?
  {
  }

  lemma PushedGoto(m: Move)
    requires m.Goto_?
    ensures Pushed(m) == [At(m.q)]
  {
  }

  lemma GotoGoes(b: Build, s: nat, x: nat)
    requires b.Ok() && s < |b.rows| && b.g.Nonterminal(x) && GotoMove(b.rows, s, x).Goto_?
    ensures |b.rows| == |b.states| == |b.best| == |b.auto| == |b.res|
    ensures Goes(b, s, x) && GotoMove(b.rows, s, x) == Goto_(Target(b.rows[s], x))
  {
    Facts(b, s);
    LiveFactOf(b, s, x);
  }

  /** The goto after a reduction to x in state s: the compressed driver takes the whole chain of
      unit reductions at once. */
  lemma GotoInStep(b: Build, s: nat, x: nat) returns (p: seq<nat>)
    requires b.Ok() && s < |b.rows| && b.g.Nonterminal(x) && GotoMove(b.rows, s, x).Goto_?
    ensures var m := GotoMove(b.res, s, x);
            && (m.Goto_? || m.GotoReduce?) && |Pushed(m)| == 1
            && Lags(b, s, p, At(GotoMove(b.rows, s, x).q), Pushed(m)[0])
  {
    hide *;
    GotoGoes(b, s, x);
    p := CompressedGotoMove(b, s, x);
    ViaFacts(b, s, x, p);
    AutosHaveBest(b);
    ClimbIsChain(b, s, p, LiveOn(b.res[s], x)[0]);
    var y := p[|p| - 1];
    FoldedPush(b, y, Target(b.rows[s], y));
    LagsFrom(b, s, x, p);
  }

  lemma ViaFacts(b: Build, s: nat, x: nat, p: seq<nat>)
    requires Via(b, s, x, p)
    ensures p != [] && p[0] == x && LiveOn(b.res[s], x) != [] && s < |b.rows| == |b.best| == |b.res|
    ensures Climb(b.g, b.Mid(s), p, LiveOn(b.res[s], x)[0]) && Shiftable(b.rows[s], p[|p| - 1])
    ensures var y := p[|p| - 1];
            GotoMove(b.res, s, x) == MoveOf(Fold(Action(y, SHIFT, Target(b.rows[s], y)), b.auto, b.best))
  {
    hide UnitPath, ShiftTo, Climb, Folded;
  }

  lemma LagsFrom(b: Build, s: nat, x: nat, p: seq<nat>)
    requires Chain(b, s, p) && p[0] == x && GotoMove(b.rows, s, x) == Goto_(Target(b.rows[s], x))
    requires var m := GotoMove(b.res, s, x);
             |Pushed(m)| == 1 && Same(b, At(Target(b.rows[s], p[|p| - 1])), Pushed(m)[0])
    ensures Lags(b, s, p, At(GotoMove(b.rows, s, x).q), Pushed(GotoMove(b.res, s, x))[0])
  {
    hide Chain, Same, GotoMove;
  }

  lemma ClimbStep(b: Build, s: nat, p: seq<nat>, a: Action, i: nat)
    requires b.Ok() && s < |b.states| && |b.rows| == |b.states| == |b.best| == |b.auto| && 0 < i < |p|
    requires Climb(b.g, b.Mid(s), p, a) && Goes(b, s, p[0])
    ensures ChainStep(b, s, p[i - 1], p[i]) && Shiftable(b.rows[s], p[i - 1])
  {
    ClimbGotos(b, s, p, a, i - 1);
    assert Renames(b.g, b.Mid(s), p[i - 1], p[i]);
    RenameMeans(b, s, p[i - 1], p[i]);
  }

  lemma ClimbIsChain(b: Build, s: nat, p: seq<nat>, a: Action)
    requires b.Ok() && s < |b.rows| == |b.states| == |b.best| == |b.auto| == |b.res|
    requires p != [] && Climb(b.g, b.Mid(s), p, a) && Goes(b, s, p[0])
    requires Shiftable(b.rows[s], p[|p| - 1])
    ensures Chain(b, s, p)
  {
    hide Build.Ok, Climb, Goes, ChainStep, Shiftable;
    forall i | 0 <= i < |p|
      ensures Shiftable(b.rows[s], p[i])
    {
      if i < |p| - 1 { ClimbStep(b, s, p, a, i + 1); }
    }
    forall i | 0 < i < |p|
      ensures ChainStep(b, s, p[i - 1], p[i])
    {
      ClimbStep(b, s, p, a, i);
    }
  }

  /** Only state 0 accepts, in either table. */
  lemma AcceptInStep(b: Build, s: nat, x: nat)
    requires b.Ok() && s < |b.rows| && GotoMove(b.rows, s, x).Accept_?
    ensures GotoMove(b.res, s, x) == Accept_
  {
    hide CompressedRow, FoldedOn;
    LiveFactOf(b, s, x);
    CompressedOnStart(b);
  }

  lemma OriginalGoto(b: Build, s: nat, x: nat)
    requires b.Ok()
    ensures !GotoMove(b.rows, s, x).GotoReduce?
    ensures GotoMove(b.rows, s, x) != Error_ ==> s < |b.rows|
  {
    if s < |b.rows| && LiveOn(b.rows[s], x) != [] { LiveFactOf(b, s, x); }
  }

  /** The outcomes of acting on a nonterminal with the same states below. */
  ghost predicate SameOutcome(b: Build, o0: Outcome, o1: Outcome) {
    match o0
    case Continue(s0) => o1.Continue? && Matches(b, s0, o1.stack)
    case Accepted(s0) => o1 == Accepted(s0)
    case Failed => true
  }

  lemma GotoOutcome(b: Build, base: seq<Place>, s: nat, x: nat)
    requires b.Ok() && b.g.Nonterminal(x) && base != [] && base[|base| - 1] == At(s)
    requires forall i | 0 <= i < |base| :: base[i].At?
    ensures SameOutcome(b, AfterGoto(base, GotoMove(b.rows, s, x)), AfterGoto(base, GotoMove(b.res, s, x)))
  {
    hide Build.Ok, GotoMove, Lags;
    var m0, m1 := GotoMove(b.rows, s, x), GotoMove(b.res, s, x);
    OriginalGoto(b, s, x);
    if m0.Accept_? {
      AcceptInStep(b, s, x);
    } else if m0.Goto_? {
      var p := GotoInStep(b, s, x);
      assert AfterGoto(base, m1) == Continue(base + [Pushed(m1)[0]]);
      assert LagsOnTop(b, base + [At(m0.q)], base + [Pushed(m1)[0]], p);
    }
  }

  /** What a reduction leaves of two stacks in step is the same. */
  lemma SameBase(b: Build, st0: seq<Place>, st1: seq<Place>, n: nat)
    requires InStep(b, st0, st1) && n < |st0| && (st0[|st0| - 1] == st1[|st1| - 1] || n > 0)
    ensures |st1| == |st0| && st0[..|st0| - n] == st1[..|st1| - n]
    ensures forall i | 0 <= i < |st0| - n :: st0[i].At?
  {
    hide AutoState;
  }

  lemma OutcomeByGoto(g: Grammar, rows: seq<seq<Action>>, stack: seq<Place>, r: nat, s: nat)
    requires r < |g.rules| && |g.rules[r].rhs| < |stack| && stack[|stack| - |g.rules[r].rhs| - 1] == At(s)
    ensures AfterReduce(g, rows, stack, r)
            == AfterGoto(stack[..|stack| - |g.rules[r].rhs|], GotoMove(rows, s, g.rules[r].lhs))
  {
    hide GotoMove, AfterGoto;
  }

  lemma ReduceInStep(b: Build, st0: seq<Place>, st1: seq<Place>, r: nat, a: nat)
    requires b.Ok() && InStep(b, st0, st1) && a < b.g.nterminal
    requires TokenMove(b.g, b.rows, st0[|st0| - 1], a) == Reduce_(r) && AfterReduce(b.g, b.rows, st0, r) != Failed
    ensures TokenMove(b.g, b.res, st1[|st1| - 1], a) == Reduce_(r)
    ensures SameOutcome(b, AfterReduce(b.g, b.rows, st0, r), AfterReduce(b.g, b.res, st1, r))
  {
    hide *;
    InStepTops(b, st0, st1);
    SameMove(b, st0[|st0| - 1].s, st1[|st1| - 1], a);
    ReduceDefined(b.g, b.rows, st0, r);
    var n := |b.g.rules[r].rhs|;
    SameBase(b, st0, st1, n);
    var base := st0[..|st0| - n];
    var s := base[|base| - 1].s;
    LhsNonterminal(b, r);
    OutcomeByGoto(b.g, b.rows, st0, r, s);
    assert st1[|st1| - n - 1] == st1[..|st1| - n][|st1| - n - 1];
    OutcomeByGoto(b.g, b.res, st1, r, s);
    GotoOutcome(b, base, s, b.g.rules[r].lhs);
  }

  lemma LhsNonterminal(b: Build, r: nat)
    requires b.Ok() && r < |b.g.rules|
    ensures b.g.Nonterminal(b.g.rules[r].lhs)
  {
    assert b.g.ValidRule(b.g.rules[r]);
  }

  lemma ReduceDefined(g: Grammar, rows: seq<seq<Action>>, stack: seq<Place>, r: nat)
    requires AfterReduce(g, rows, stack, r) != Failed
    ensures r < |g.rules| && |g.rules[r].rhs| < |stack|
  {
  }

  /** The theorem: every accepting run before compression is matched by one after it, with the same
      shifts and the same reductions but for skipped unit rules. */
  lemma {:induction false} CompressionSimulates(b: Build, st0: seq<Place>, st1: seq<Place>, input: seq<nat>,
                                                trace: seq<Event>)
    returns (trace1: seq<Event>)
    requires b.Ok() && Matches(b, st0, st1) && Tokenized(b.g, input)
    requires Accepts(b.g, b.rows, st0, input, trace)
    ensures Accepts(b.g, b.res, st1, input, trace1)
    ensures Thinned(b.g, trace, trace1)
    decreases |trace|
  {
    if p :| LagsOnTop(b, st0, st1, p) && |p| > 1 {
      trace1 := SimulateLag(b, st0, st1, p, input, trace);
    } else {
      LagOfOne(b, st0, st1);
      trace1 := SimulateInStep(b, st0, st1, input, trace);
    }
  }

  lemma LagOfOne(b: Build, st0: seq<Place>, st1: seq<Place>)
    requires Matches(b, st0, st1) && forall p | LagsOnTop(b, st0, st1, p) :: |p| <= 1
    ensures InStep(b, st0, st1)
  {
  }

  lemma {:induction false} SimulateLag(b: Build, st0: seq<Place>, st1: seq<Place>, p: seq<nat>, input: seq<nat>,
                                       trace: seq<Event>)
    returns (trace1: seq<Event>)
    requires b.Ok() && LagsOnTop(b, st0, st1, p) && |p| > 1 && Tokenized(b.g, input)
    requires Accepts(b.g, b.rows, st0, input, trace)
    ensures Accepts(b.g, b.res, st1, input, trace1)
    ensures Thinned(b.g, trace, trace1)
    decreases |trace|, 0
  {
    var a := NextToken(input);
    var st := CatchUp(b, st0, st1, p, a);
    trace1 := CompressionSimulates(b, st, st1, input, trace[1..]);
  }

  lemma {:induction false} SimulateInStep(b: Build, st0: seq<Place>, st1: seq<Place>, input: seq<nat>,
                                          trace: seq<Event>)
    returns (trace1: seq<Event>)
    requires b.Ok() && InStep(b, st0, st1) && Tokenized(b.g, input)
    requires Accepts(b.g, b.rows, st0, input, trace)
    ensures Accepts(b.g, b.res, st1, input, trace1)
    ensures Thinned(b.g, trace, trace1)
    decreases |trace|, 0
  {
    hide Build.Ok, InStep, Matches, TokenMove, AfterReduce, Pushed;
    InStepTops(b, st0, st1);
    var a := NextToken(input);
    EndIsToken(b);
    SameMove(b, st0[|st0| - 1].s, st1[|st1| - 1], a);
    var m := TokenMove(b.g, b.rows, st0[|st0| - 1], a);
    if m.Reduce_? {
      ReduceInStep(b, st0, st1, m.r, a);
      var o := AfterReduce(b.g, b.rows, st0, m.r);
      if o.Continue? {
        var rest := CompressionSimulates(b, o.stack, AfterReduce(b.g, b.res, st1, m.r).stack, input, trace[1..]);
        trace1 := [trace[0]] + rest;
      } else {
        trace1 := trace;
      }
    } else {
      ShiftInStep(b, st0, st1, a);
      var m1 := TokenMove(b.g, b.res, st1[|st1| - 1], a);
      var rest := CompressionSimulates(b, st0 + Pushed(m), st1 + Pushed(m1), input[1..], trace[1..]);
      trace1 := [trace[0]] + rest;
    }
  }

  lemma EndIsToken(b: Build)
    requires b.Ok()
    ensures 0 < b.g.nterminal
  {
  }

  /** From the start of the parse. */
  lemma CompressionPreservesParsing(b: Build, input: seq<nat>, trace: seq<Event>) returns (trace1: seq<Event>)
    requires b.Ok() && Tokenized(b.g, input)
    requires Accepts(b.g, b.rows, [At(0)], input, trace)
    ensures Accepts(b.g, b.res, [At(0)], input, trace1)
    ensures Thinned(b.g, trace, trace1)
  {
    hide *;
    StartInStep(b);
    trace1 := CompressionSimulates(b, [At(0)], [At(0)], input, trace);
  }

  lemma StartInStep(b: Build)
    ensures Matches(b, [At(0)], [At(0)])
  {
    assert InStep(b, [At(0)], [At(0)]);
  }
}
