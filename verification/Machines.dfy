/** The pushdown machine of `Parse`, `yy_shift` and `yy_reduce` on the action rows of the states,
    before these are coded into tables; and why what it accepts is derivable. */
module Machines {
  import opened Grammars
  import opened Items
  import opened Actions
  import opened Collections
  import opened Conflicts

  // ---------------------------------------------------------------- the machine

  /** What a stack entry holds: a state, or after the shift half of a SHIFTREDUCE the rule that
      is still to be reduced. */
  datatype Place = At(s: nat) | Pending(r: nat)

  datatype Move =
    | Goto_(q: nat)        // shift to a state
    | GotoReduce(r: nat)   // shift, then reduce
    | Reduce_(r: nat)
    | Accept_
    | Error_

  function MoveOf(a: Action): Move {
    match a.typ
    case SHIFT => Goto_(a.x)
    case SHIFTREDUCE => GotoReduce(a.x)
    case REDUCE => Reduce_(a.x)
    case ACCEPT => Accept_
    case _ => Error_
  }

  /** The live action on a lookahead, if there is one. */
  function LiveOn(row: seq<Action>, x: nat): (r: seq<Action>)
    ensures |r| <= 1
    ensures |r| == 1 ==> r[0] in row && Live(r[0]) && r[0].sp == x
    ensures |r| == 0 ==> forall a | a in row :: !(Live(a) && a.sp == x)
  {
    if row == [] then []
    else if row[0].sp == x && Live(row[0]) then [row[0]]
    else LiveOn(row[1..], x)
  }

  lemma LiveOnUnique(row: seq<Action>, a: Action)
    requires OneLive(row) && a in row && Live(a)
    ensures LiveOn(row, a.sp) == [a]
  {
    var r := LiveOn(row, a.sp);
    var i :| 0 <= i < |row| && row[i] == a;
    var j :| 0 <= j < |row| && row[j] == r[0];
    assert i == j;
  }

  /** The action on a token: the state's own, else its default, else a syntax error. */
  function TokenMove(g: Grammar, rows: seq<seq<Action>>, p: Place, a: nat): Move {
    match p
    case Pending(r) => Reduce_(r)
    case At(s) =>
      if s >= |rows| then Error_
      else
        var own, dflt := LiveOn(rows[s], a), LiveOn(rows[s], g.NSymbol());
        if own != [] then MoveOf(own[0]) else if dflt != [] then MoveOf(dflt[0]) else Error_
  }

  /** The action on a nonterminal after a reduction has exposed state s. */
  function GotoMove(rows: seq<seq<Action>>, s: nat, x: nat): Move {
    if s >= |rows| then Error_
    else
      var own := LiveOn(rows[s], x);
      if own != [] then MoveOf(own[0]) else Error_
  }

  // ---------------------------------------------------------------- events

  datatype Event = Shifted(a: nat) | Reduced(r: nat)

  /** The events of a parse tree in postorder: shifts for its leaves, reductions for its nodes. */
  function Post(t: Tree): seq<Event>
    decreases t, 1
  {
    match t
    case Leaf(x) => [Shifted(x)]
    case Node(r, kids) => PostAll(kids) + [Reduced(r)]
  }

  function PostAll(ts: seq<Tree>): seq<Event>
    decreases ts, 0
  {
    if ts == [] then [] else Post(ts[0]) + PostAll(ts[1..])
  }

  lemma {:induction false} PostConcat(a: seq<Tree>, b: seq<Tree>)
    ensures PostAll(a + b) == PostAll(a) + PostAll(b)
  {
    if a == [] {
      assert a + b == b;
    } else {
      PostConcat(a[1..], b);
      assert (a + b)[1..] == a[1..] + b;
      assert PostAll(a + b) == Post(a[0]) + (PostAll(a[1..]) + PostAll(b));
    }
  }

  lemma PostOne(t: Tree)
    ensures PostAll([t]) == Post(t)
  {
    assert [t][1..] == [];
  }

  // ---------------------------------------------------------------- transitions and unit rules

  /** State q is reached from s by the symbol x. */
  ghost predicate ShiftTo(g: Grammar, states: seq<State>, s: nat, x: nat, q: nat) {
    && s < |states| && q < |states|
    && HasGoto(g, states, s, x)
    && Kernel(states[q]) == Goto(g, ItemsOf(states[s]), x)
  }

  ghost predicate HasGoto(g: Grammar, states: seq<State>, s: nat, x: nat) {
    s < |states| && exists i :: i in states[s].cfp && Shifts(g, i, x)
  }

  ghost predicate Complete(g: Grammar, states: seq<State>, q: nat, r: nat) {
    q < |states| && r < |g.rules| && Item(r, |g.rules[r].rhs|) in states[q].cfp
  }

  /** A rule without code that makes the nonterminal y out of the single nonterminal x. */
  predicate UnitRule(g: Grammar, r: nat, x: nat, y: nat) {
    && r < |g.rules|
    && g.rules[r].noCode
    && g.rules[r].rhs == [x]
    && g.rules[r].lhs == y
    && g.Nonterminal(x)
  }

  ghost predicate UnitStep(g: Grammar, x: nat, y: nat) {
    exists r :: UnitRule(g, r, x, y)
  }

  /** p climbs from p[0] by unit rules. */
  ghost predicate UnitPath(g: Grammar, p: seq<nat>) {
    p != [] && forall i | 0 < i < |p| :: UnitStep(g, p[i - 1], p[i])
  }

  ghost predicate UnitChain(g: Grammar, x: nat, y: nat) {
    exists p :: UnitPath(g, p) && p[0] == x && p[|p| - 1] == y
  }

  lemma UnitChainRefl(g: Grammar, x: nat)
    ensures UnitChain(g, x, x)
  {
    assert UnitPath(g, [x]);
  }

  /** A tree of x becomes a tree of y with the same yield, read later in postorder. */
  lemma {:induction false} WrapTree(g: Grammar, t: Tree, p: seq<nat>) returns (t': Tree)
    requires ValidTree(g, t) && UnitPath(g, p) && Root(g, t) == p[0]
    ensures ValidTree(g, t') && Root(g, t') == p[|p| - 1] && Yield(t') == Yield(t) && Post(t) <= Post(t')
    decreases |p|
  {
    if |p| == 1 {
      t' := t;
    } else {
      var n := |p| - 1;
      assert UnitPath(g, p[..n]);
      var u := WrapTree(g, t, p[..n]);
      assert UnitStep(g, p[n - 1], p[n]);
      var r :| UnitRule(g, r, p[n - 1], p[n]);
      t' := Node(r, [u]);
      assert Roots(g, [u]) == [Root(g, u)];
      PostOne(u);
      assert YieldAll([u]) == Yield(u) + YieldAll([]) == Yield(u);
    }
  }

  // ---------------------------------------------------------------- sound rows

  /** A reduction that is taken without looking at the next token is by a rule of some symbol
      other than the start symbol, and pops at least one entry. */
  predicate Blind(g: Grammar, r: nat) {
    r < |g.rules| && g.rules[r].rhs != [] && g.rules[r].lhs != g.start
  }

  ghost predicate SoundOnToken(g: Grammar, states: seq<State>, s: nat, a: nat, m: Move) {
    match m
    case Goto_(q) => ShiftTo(g, states, s, a, q)
    case GotoReduce(r) => Blind(g, r) && exists q :: ShiftTo(g, states, s, a, q) && Complete(g, states, q, r)
    case Reduce_(r) => Complete(g, states, s, r) && (g.rules[r].lhs == g.start ==> a == 0)
    case Accept_ => false
    case Error_ => true
  }

  /** After a reduction to x: the goto of x, or of what unit rules without code make of it. */
  ghost predicate SoundOnGoto(g: Grammar, states: seq<State>, s: nat, x: nat, m: Move) {
    if x == g.start then (s == 0 && m == Accept_)
    else match m
      case Goto_(q) => exists y :: UnitChain(g, x, y) && ShiftTo(g, states, s, y, q)
      case GotoReduce(r) => Blind(g, r) && exists y, q ::
        UnitChain(g, x, y) && ShiftTo(g, states, s, y, q) && Complete(g, states, q, r)
      case _ => false
  }

  ghost predicate SoundRows(g: Grammar, states: seq<State>, rows: seq<seq<Action>>) {
    && |rows| == |states|
    && (forall s, a | 0 <= s < |states| && 0 <= a < g.nterminal ::
        SoundOnToken(g, states, s, a, TokenMove(g, rows, At(s), a)))
    && (forall s: nat, x: nat | s < |states| && HasGoto(g, states, s, x) && x >= g.nterminal ::
        SoundOnGoto(g, states, s, x, GotoMove(rows, s, x)))
    && SoundOnGoto(g, states, 0, g.start, GotoMove(rows, 0, g.start))
  }

  // ---------------------------------------------------------------- runs

  datatype Outcome = Continue(stack: seq<Place>) | Accepted(stack: seq<Place>) | Failed

  /** `yy_reduce`: pop the right-hand side, then act on the left-hand side in the state that this
      exposes.  `Failed` stands for the conditions the driver asserts. */
  function AfterReduce(g: Grammar, rows: seq<seq<Action>>, stack: seq<Place>, r: nat): Outcome {
    if r >= |g.rules| || |g.rules[r].rhs| >= |stack| then Failed
    else
      var base := stack[..|stack| - |g.rules[r].rhs|];
      match base[|base| - 1]
      case Pending(_) => Failed
      case At(s) => AfterGoto(base, GotoMove(rows, s, g.rules[r].lhs))
  }

  function AfterGoto(base: seq<Place>, m: Move): Outcome {
    match m
    case Goto_(q) => Continue(base + [At(q)])
    case GotoReduce(r') => Continue(base + [Pending(r')])
    case Accept_ => Accepted(base)
    case _ => Failed
  }

  /** What a shift pushes. */
  function Pushed(m: Move): (e: seq<Place>) {
    match m
    case Goto_(q) => [At(q)]
    case GotoReduce(r) => [Pending(r)]
    case _ => []
  }

  /** The token that comes next: "$" at the end of the input. */
  function NextToken(input: seq<nat>): nat {
    if input == [] then 0 else input[0]
  }

  ghost predicate Tokenized(g: Grammar, w: seq<nat>) {
    forall i | 0 <= i < |w| :: w[i] < g.nterminal
  }

  /** The driver, started on this stack and fed the input and then "$", does exactly what the
      trace says, meets no syntax error, and accepts with the stack at its bottom. */
  ghost predicate Accepts(g: Grammar, rows: seq<seq<Action>>, stack: seq<Place>, input: seq<nat>, trace: seq<Event>)
    decreases |trace|
  {
    stack != [] && trace != [] &&
    var a := NextToken(input);
    var m := TokenMove(g, rows, stack[|stack| - 1], a);
    match m
    case Goto_(_) => input != [] && trace[0] == Shifted(a)
      && Accepts(g, rows, stack + Pushed(m), input[1..], trace[1..])
    case GotoReduce(_) => input != [] && trace[0] == Shifted(a)
      && Accepts(g, rows, stack + Pushed(m), input[1..], trace[1..])
    case Reduce_(r) =>
      && trace[0] == Reduced(r)
      && (match AfterReduce(g, rows, stack, r)
          case Continue(stack') => Accepts(g, rows, stack', input, trace[1..])
          case Accepted(stack') => |stack'| == 1 && input == [] && |trace| == 1
          case Failed => false)
    case _ => false
  }

  // ---------------------------------------------------------------- token by token

  /** What one call of `Parse` does: it is done with the token when that is shifted, accepted or
      wrong; with too little fuel it is still reducing. */
  datatype Effect = TokenShifted | InputAccepted | SyntaxError | Unfinished

  function TokenRun(g: Grammar, rows: seq<seq<Action>>, stack: seq<Place>, a: nat,
                    fuel: nat): (Effect, seq<Place>, seq<Event>)
    decreases fuel
  {
    if fuel == 0 then (Unfinished, stack, [])
    else if stack == [] then (SyntaxError, stack, [])
    else
      var m := TokenMove(g, rows, stack[|stack| - 1], a);
      if m.Goto_? || m.GotoReduce? then (TokenShifted, stack + Pushed(m), [Shifted(a)])
      else if m.Reduce_? then
        match AfterReduce(g, rows, stack, m.r)
        case Continue(stack') =>
          var rest := TokenRun(g, rows, stack', a, fuel - 1);
          (rest.0, rest.1, [Reduced(m.r)] + rest.2)
        case Accepted(stack') => (InputAccepted, stack', [Reduced(m.r)])
        case Failed => (SyntaxError, stack, [])
      else (SyntaxError, stack, [])
  }

  /** More fuel only makes more of the same steps. */
  lemma RunStep(g: Grammar, rows: seq<seq<Action>>, stack: seq<Place>, a: nat, fuel: nat)
    requires fuel > 0
    ensures var one := TokenRun(g, rows, stack, a, 1);
            var all := TokenRun(g, rows, stack, a, fuel);
            if one.0 != Unfinished then all == one
            else var rest := TokenRun(g, rows, one.1, a, fuel - 1); all == (rest.0, rest.1, one.2 + rest.2)
  {
    hide TokenMove, AfterReduce, Pushed;
    var one := TokenRun(g, rows, stack, a, 1);
    if one.0 == Unfinished {
      var m := TokenMove(g, rows, stack[|stack| - 1], a);
      assert one.2 == [Reduced(m.r)] + [] == [Reduced(m.r)];
    }
  }

  /** Feeding the input and then "$": whether it is accepted without an error, and the events. */
  function FeedAll(g: Grammar, rows: seq<seq<Action>>, stack: seq<Place>, input: seq<nat>,
                   fuel: nat): (bool, seq<Event>)
    decreases |input|
  {
    var run := TokenRun(g, rows, stack, NextToken(input), fuel);
    if input == [] then (run.0.InputAccepted? && |run.1| == 1, run.2)
    else if run.0.TokenShifted? then
      var rest := FeedAll(g, rows, run.1, input[1..], fuel);
      (rest.0, run.2 + rest.1)
    else (false, run.2)
  }

  /** The run with the next token makes the events ev and leads to the stack st. */
  ghost predicate TakesToken(g: Grammar, rows: seq<seq<Action>>, stack: seq<Place>, input: seq<nat>, fuel: nat,
                             st: seq<Place>, ev: seq<Event>) {
    TokenRun(g, rows, stack, NextToken(input), fuel) ==
      (if input == [] then InputAccepted else TokenShifted, st, ev)
  }

  /** The rest of an accepting run. */
  ghost predicate Finishes(g: Grammar, rows: seq<seq<Action>>, input: seq<nat>, st: seq<Place>, rest: seq<Event>) {
    if input == [] then |st| == 1 && rest == [] else Accepts(g, rows, st, input[1..], rest)
  }

  /** An accepting run begins by taking the next token. */
  lemma {:induction false} AcceptsToken(g: Grammar, rows: seq<seq<Action>>, stack: seq<Place>, input: seq<nat>,
                                        trace: seq<Event>,
                                        fuel: nat)
    returns (k: nat, st: seq<Place>)
    requires Accepts(g, rows, stack, input, trace) && |trace| <= fuel
    ensures 0 < k <= |trace| && TakesToken(g, rows, stack, input, fuel, st, trace[..k])
    ensures Finishes(g, rows, input, st, trace[k..])
    decreases |trace|
  {
    hide TokenMove, AfterReduce, Pushed;
    var a := NextToken(input);
    var m := TokenMove(g, rows, stack[|stack| - 1], a);
    if m.Reduce_? && AfterReduce(g, rows, stack, m.r).Continue? {
      var k';
      k', st := AcceptsToken(g, rows, AfterReduce(g, rows, stack, m.r).stack, input, trace[1..], fuel - 1);
      k := k' + 1;
      assert trace[1..][..k'] == trace[1..k] && trace[1..][k'..] == trace[k..];
      assert [trace[0]] + trace[1..k] == trace[..k];
    } else {
      k, st := 1, if m.Reduce_? then AfterReduce(g, rows, stack, m.r).stack else stack + Pushed(m);
      assert [trace[0]] == trace[..1];
    }
  }

  /** A run that accepts is one that token-by-token feeding makes. */
  lemma {:induction false} AcceptsIsFed(g: Grammar, rows: seq<seq<Action>>, stack: seq<Place>, input: seq<nat>,
                                        trace: seq<Event>,
                                        fuel: nat)
    requires Accepts(g, rows, stack, input, trace) && |trace| <= fuel
    ensures FeedAll(g, rows, stack, input, fuel) == (true, trace)
    decreases |input|
  {
    hide TokenRun, Accepts;
    var k, st := AcceptsToken(g, rows, stack, input, trace, fuel);
    if input != [] {
      AcceptsIsFed(g, rows, st, input[1..], trace[k..], fuel);
    }
    assert trace[..k] + trace[k..] == trace;
    if input == [] {
      assert trace[k..] == [];
      assert trace[..k] == trace;
    }
  }

  /** Taking the next token begins an accepting run. */
  lemma {:induction false} TokenAccepts(g: Grammar, rows: seq<seq<Action>>, stack: seq<Place>, input: seq<nat>,
                                        fuel: nat,
                                        st: seq<Place>, ev: seq<Event>, rest: seq<Event>)
    requires TakesToken(g, rows, stack, input, fuel, st, ev) && Finishes(g, rows, input, st, rest)
    ensures Accepts(g, rows, stack, input, ev + rest)
    decreases fuel
  {
    hide TokenMove, AfterReduce, Pushed;
    var a := NextToken(input);
    var m := TokenMove(g, rows, stack[|stack| - 1], a);
    if m.Reduce_? && AfterReduce(g, rows, stack, m.r).Continue? {
      TokenAccepts(g, rows, AfterReduce(g, rows, stack, m.r).stack, input, fuel - 1, st, ev[1..], rest);
      assert (ev + rest)[1..] == ev[1..] + rest;
    } else {
      assert (ev + rest)[1..] == rest;
    }
  }

  /** And conversely: what feeding accepts is an accepting run. */
  lemma {:induction false} FedIsAccepts(g: Grammar, rows: seq<seq<Action>>, stack: seq<Place>, input: seq<nat>,
                                        fuel: nat)
    requires FeedAll(g, rows, stack, input, fuel).0
    ensures Accepts(g, rows, stack, input, FeedAll(g, rows, stack, input, fuel).1)
    decreases |input|
  {
    hide TokenRun, Accepts;
    var run := TokenRun(g, rows, stack, NextToken(input), fuel);
    if input == [] {
      TokenAccepts(g, rows, stack, input, fuel, run.1, run.2, []);
      assert run.2 + [] == run.2;
    } else {
      FedIsAccepts(g, rows, run.1, input[1..], fuel);
      TokenAccepts(g, rows, stack, input, fuel, run.1, run.2, FeedAll(g, rows, run.1, input[1..], fuel).1);
    }
  }
}
