/** Why what the machine accepts is derivable: the stack is a walk through the LR(0) states, and
    carries parse trees of the tokens consumed. */
module Soundness {
  import opened Grammars
  import opened Items
  import opened Actions
  import opened Collections
  import opened Machines

  // ---------------------------------------------------------------- the invariant of the stack

  ghost predicate PlaceOk(g: Grammar, states: seq<State>, p: Place, q: nat) {
    match p
    case At(s) => s == q
    case Pending(r) => Blind(g, r) && Complete(g, states, q, r)
  }

  /** `path` is a walk through the states from state 0, along the roots of `trees`. */
  ghost predicate Walk(g: Grammar, states: seq<State>, path: seq<nat>, trees: seq<Tree>) {
    && |path| == |trees| + 1
    && path[0] == 0
    && (forall i | 0 <= i < |path| :: path[i] < |states|)
    && (forall i | 0 <= i < |trees| :: ShiftTo(g, states, path[i], Root(g, trees[i]), path[i + 1]))
  }

  /** `path` are the LR(0) states behind the entries, `trees` the parse trees of the symbols
      between them. */
  ghost predicate StackInv(g: Grammar, states: seq<State>, stack: seq<Place>, path: seq<nat>, trees: seq<Tree>) {
    && |stack| == |path|
    && Walk(g, states, path, trees)
    && ValidForest(g, trees)
    && (forall i | 0 <= i < |stack| - 1 :: stack[i] == At(path[i]))
    && PlaceOk(g, states, stack[|stack| - 1], path[|stack| - 1])
  }

  lemma StackInvStart(g: Grammar, states: seq<State>)
    requires |states| > 0
    ensures StackInv(g, states, [At(0)], [0], [])
  {
  }

  /** The symbols in front of a dot are on the stack, and the rule was begun below them. */
  lemma {:induction false} Spelled(g: Grammar, states: seq<State>, path: seq<nat>, trees: seq<Tree>, n: nat, r: nat,
                                   d: nat)
    requires Canonical(g, states) && Walk(g, states, path, trees) && n <= |trees| && r < |g.rules|
    requires Item(r, d) in states[path[n]].cfp
    ensures d <= n && d <= |g.rules[r].rhs|
    ensures forall i | 0 <= i < d :: Root(g, trees[n - d + i]) == g.rules[r].rhs[i]
    ensures Item(r, 0) in states[path[n - d]].cfp
    decreases d
  {
    hide Canonical, ShiftTo;
    if d > 0 {
      DottedInKernel(g, states, path[n], r, d);
      KernelComesFrom(g, states, path, trees, n, r, d);
      Spelled(g, states, path, trees, n - 1, r, d - 1);
    }
  }

  /** An item whose dot has moved is in the kernel. */
  lemma DottedInKernel(g: Grammar, states: seq<State>, q: nat, r: nat, d: nat)
    requires Canonical(g, states) && q < |states| && Item(r, d) in states[q].cfp && d > 0
    ensures Item(r, d) in Kernel(states[q])
  {
    assert StateOk(g, states[q]);
    KernelInItems(g, states[q]);
    assert Item(r, d) in ItemsOf(states[q]);
    if Item(r, d) !in Kernel(states[q]) {
      ClosureOrigin(g, Kernel(states[q]), Item(r, d));
    }
  }

  lemma KernelComesFrom(g: Grammar, states: seq<State>, path: seq<nat>, trees: seq<Tree>, n: nat, r: nat, d: nat)
    requires Canonical(g, states) && Walk(g, states, path, trees) && n <= |trees| && r < |g.rules| && d > 0
    requires Item(r, d) in Kernel(states[path[n]])
    ensures n > 0
    ensures Item(r, d - 1) in states[path[n - 1]].cfp
    ensures Shifts(g, Item(r, d - 1), Root(g, trees[n - 1]))
  {
    hide Canonical, Closure, HasGoto;
    if n == 0 {
      StartDots(g, states, r, d);
    } else {
      assert ShiftTo(g, states, path[n - 1], Root(g, trees[n - 1]), path[n - 1 + 1]);
      var i :| i in ItemsOf(states[path[n - 1]]) && Shifts(g, i, Root(g, trees[n - 1])) && Item(r, d) == Advance(i);
      assert i == Item(r, d - 1);
    }
  }

  /** A rule begun in state s: either s is state 0 and the rule is a start rule, or some
      configuration of s waits for its symbol. */
  lemma StartDots(g: Grammar, states: seq<State>, r: nat, d: nat)
    requires Canonical(g, states) && d > 0
    ensures Item(r, d) !in Kernel(states[0])
  {
  }

  lemma BegunRule(g: Grammar, states: seq<State>, s: nat, r: nat)
    requires Canonical(g, states) && s < |states| && r < |g.rules| && Item(r, 0) in states[s].cfp
    ensures (g.rules[r].lhs == g.start && Kernel(states[s]) == StartItems(g)) || HasGoto(g, states, s, g.rules[r].lhs)
  {
    assert StateOk(g, states[s]);
    KernelInItems(g, states[s]);
    assert Item(r, 0) in ItemsOf(states[s]);
    if Item(r, 0) in Kernel(states[s]) {
      var w :| KernelOf(g, w) == Kernel(states[s]);
      DotZeroKernel(g, w, r);
    } else {
      ClosureOrigin(g, Kernel(states[s]), Item(r, 0));
      var i :| i in ItemsOf(states[s]) && Expands(g, i, Item(r, 0));
      assert i in states[s].cfp && Shifts(g, i, g.rules[r].lhs);
    }
  }

  /** Only the start kernel holds an item with its dot at the left. */
  lemma DotZeroKernel(g: Grammar, w: seq<nat>, r: nat)
    requires Item(r, 0) in KernelOf(g, w)
    ensures KernelOf(g, w) == StartItems(g)
  {
  }

  /** State 0 is never shifted to. */
  lemma StartNotEntered(g: Grammar, states: seq<State>, s: nat, x: nat, q: nat)
    requires ShiftTo(g, states, s, x, q)
    ensures Kernel(states[q]) != StartItems(g)
  {
    var i :| i in states[s].cfp && Shifts(g, i, x);
    assert i in ItemsOf(states[s]);
    assert Advance(i) in Goto(g, ItemsOf(states[s]), x);
    assert Advance(i) !in StartItems(g);
  }

  // ---------------------------------------------------------------- one step

  lemma WalkOn(g: Grammar, states: seq<State>, path: seq<nat>, trees: seq<Tree>, t: Tree, q: nat)
    requires Walk(g, states, path, trees) && ShiftTo(g, states, path[|trees|], Root(g, t), q)
    ensures Walk(g, states, path + [q], trees + [t])
  {
  }

  lemma WalkBack(g: Grammar, states: seq<State>, path: seq<nat>, trees: seq<Tree>, n: nat)
    requires Walk(g, states, path, trees) && n <= |trees|
    ensures Walk(g, states, path[..n + 1], trees[..n])
  {
  }

  /** Pushing an entry for the symbol of tree t. */
  lemma PushKeeps(g: Grammar, states: seq<State>, stack: seq<Place>, path: seq<nat>, trees: seq<Tree>, t: Tree,
                  e: Place, q: nat)
    requires Walk(g, states, path, trees) && ValidForest(g, trees) && |stack| == |path|
    requires forall i | 0 <= i < |stack| :: stack[i] == At(path[i])
    requires ValidTree(g, t) && ShiftTo(g, states, path[|trees|], Root(g, t), q) && PlaceOk(g, states, e, q)
    ensures StackInv(g, states, stack + [e], path + [q], trees + [t])
    ensures YieldAll(trees + [t]) == YieldAll(trees) + Yield(t)
  {
    hide ShiftTo, PlaceOk;
    WalkOn(g, states, path, trees, t, q);
    YieldAllConcat(trees, [t]);
    assert YieldAll([t]) == Yield(t) + YieldAll([][..]);
  }

  /** Shifting token a. */
  lemma ShiftKeeps(g: Grammar, states: seq<State>, rows: seq<seq<Action>>, stack: seq<Place>, path: seq<nat>,
                   trees: seq<Tree>, a: nat)
    returns (q: nat)
    requires g.Valid() && SoundRows(g, states, rows) && StackInv(g, states, stack, path, trees) && a < g.nterminal
    requires var m := TokenMove(g, rows, stack[|stack| - 1], a); m.Goto_? || m.GotoReduce?
    ensures StackInv(g, states, stack + Pushed(TokenMove(g, rows, stack[|stack| - 1], a)), path + [q],
                     trees + [Leaf(a)])
    ensures YieldAll(trees + [Leaf(a)]) == YieldAll(trees) + [a]
  {
    var top := stack[|stack| - 1];
    var m := TokenMove(g, rows, top, a);
    var s := path[|path| - 1];
    assert top == At(s) && SoundOnToken(g, states, s, a, m);
    if m.Goto_? {
      q := m.q;
    } else {
      q :| ShiftTo(g, states, s, a, q) && Complete(g, states, q, m.r);
    }
    hide ShiftTo, Complete, SoundRows, TokenMove;
    PushKeeps(g, states, stack, path, trees, Leaf(a), Pushed(m)[0], q);
  }

  /** A reduction on top of the stack. */
  ghost predicate Reducible(g: Grammar, states: seq<State>, stack: seq<Place>, path: seq<nat>, r: nat, a: nat) {
    && path != [] && |stack| == |path|
    && Complete(g, states, path[|path| - 1], r)
    && (stack[|stack| - 1].Pending? ==> g.rules[r].rhs != [])
    && (g.rules[r].lhs == g.start ==> a == 0)
  }

  lemma TopReducible(g: Grammar, states: seq<State>, rows: seq<seq<Action>>, stack: seq<Place>, path: seq<nat>,
                     trees: seq<Tree>, a: nat)
    requires SoundRows(g, states, rows) && StackInv(g, states, stack, path, trees) && a < g.nterminal
    requires TokenMove(g, rows, stack[|stack| - 1], a).Reduce_?
    ensures Reducible(g, states, stack, path, TokenMove(g, rows, stack[|stack| - 1], a).r, a)
  {
    match stack[|stack| - 1]
    case Pending(r) =>
    case At(s) => assert SoundOnToken(g, states, s, a, TokenMove(g, rows, At(s), a));
  }

  /** The right-hand side is on top of the stack: its tree, and the state below it. */
  lemma Reduced_(g: Grammar, states: seq<State>, stack: seq<Place>, path: seq<nat>, trees: seq<Tree>, r: nat, a: nat)
    returns (n: nat, t: Tree)
    requires Canonical(g, states) && Walk(g, states, path, trees) && ValidForest(g, trees)
    requires Reducible(g, states, stack, path, r, a)
    ensures r < |g.rules| && n == |trees| - |g.rules[r].rhs| && n < |path| && path[n] < |states|
    ensures Roots(g, trees[n..]) == g.rules[r].rhs && Root(g, t) == g.rules[r].lhs
    ensures t == Node(r, trees[n..]) && ValidTree(g, t)
    ensures Item(r, 0) in states[path[n]].cfp
    ensures YieldAll(trees[..n]) + Yield(t) == YieldAll(trees)
  {
    var d := |g.rules[r].rhs|;
    Spelled(g, states, path, trees, |trees|, r, d);
    n := |trees| - d;
    t := Node(r, trees[n..]);
    assert Roots(g, trees[n..]) == g.rules[r].rhs;
    YieldAllConcat(trees[..n], trees[n..]);
    assert trees[..n] + trees[n..] == trees;
  }

  lemma NoStartGoto(g: Grammar, states: seq<State>, s: nat)
    requires g.StartOffRhs()
    ensures !HasGoto(g, states, s, g.start)
  {
    if s < |states| {
      forall i | i in states[s].cfp
        ensures !Shifts(g, i, g.start)
      {
        if CanShift(g, i) { assert SymbolAt(g, i) in g.rules[i.rule].rhs; }
      }
    }
  }

  /** Only state 0, at the bottom, begins the rules of the start symbol. */
  lemma StartAtBottom(g: Grammar, states: seq<State>, path: seq<nat>, trees: seq<Tree>, n: nat, r: nat)
    requires g.StartOffRhs() && Canonical(g, states) && Walk(g, states, path, trees) && n <= |trees|
    requires r < |g.rules| && Item(r, 0) in states[path[n]].cfp
    ensures g.rules[r].lhs == g.start ==> n == 0
    ensures g.rules[r].lhs != g.start ==> HasGoto(g, states, path[n], g.rules[r].lhs)
  {
    var s := path[n];
    BegunRule(g, states, s, r);
    if g.rules[r].lhs == g.start {
      NoStartGoto(g, states, s);
      if n > 0 {
        assert ShiftTo(g, states, path[n - 1], Root(g, trees[n - 1]), path[n - 1 + 1]);
        StartNotEntered(g, states, path[n - 1], Root(g, trees[n - 1]), s);
      }
    }
  }

  /** After a reduction to a symbol other than the start symbol, the goto is found, and what is
      pushed stands for that symbol, or for what unit rules make of it. */
  lemma GotoFound(g: Grammar, states: seq<State>, rows: seq<seq<Action>>, s: nat, t: Tree)
    returns (e: Place, q: nat, t': Tree)
    requires g.Valid() && SoundRows(g, states, rows) && s < |states| && ValidTree(g, t)
    requires Root(g, t) != g.start && g.Nonterminal(Root(g, t)) && HasGoto(g, states, s, Root(g, t))
    ensures [e] == Pushed(GotoMove(rows, s, Root(g, t)))
    ensures ValidTree(g, t') && Yield(t') == Yield(t) && ShiftTo(g, states, s, Root(g, t'), q)
    ensures PlaceOk(g, states, e, q)
    ensures UnitChain(g, Root(g, t), Root(g, t')) && Post(t) <= Post(t')
  {
    var x := Root(g, t);
    var m := GotoMove(rows, s, x);
    assert SoundOnGoto(g, states, s, x, m);
    hide SoundRows, ShiftTo, HasGoto, GotoMove;
    e := Pushed(m)[0];
    var y: nat;
    match m {
      case Goto_(q0) =>
        q := q0;
        y :| UnitChain(g, x, y) && ShiftTo(g, states, s, y, q);
      case GotoReduce(r) =>
        y, q :| UnitChain(g, x, y) && ShiftTo(g, states, s, y, q) && Complete(g, states, q, r);
    }
    var p :| UnitPath(g, p) && p[0] == x && p[|p| - 1] == y;
    t' := WrapTree(g, t, p);
  }

  /** What a reduction leaves of the stack are states. */
  lemma BaseStates(g: Grammar, states: seq<State>, stack: seq<Place>, path: seq<nat>, trees: seq<Tree>, r: nat, a: nat)
    requires StackInv(g, states, stack, path, trees) && Reducible(g, states, stack, path, r, a)
    ensures forall i | 0 <= i < |stack| - |g.rules[r].rhs| :: stack[i] == At(path[i])
    ensures forall i | 0 <= i < |path| :: path[i] < |states|
  {
  }

  /** Reducing a rule of the start symbol accepts. */
  lemma AcceptStep(g: Grammar, states: seq<State>, rows: seq<seq<Action>>, stack: seq<Place>, path: seq<nat>,
                   trees: seq<Tree>, r: nat, a: nat)
    requires g.Valid() && g.StartOffRhs() && Canonical(g, states) && SoundRows(g, states, rows)
    requires StackInv(g, states, stack, path, trees) && Reducible(g, states, stack, path, r, a)
    requires g.rules[r].lhs == g.start
    ensures AfterReduce(g, rows, stack, r) == Accepted(stack[..1])
    ensures a == 0 && Derives(g, g.start, YieldAll(trees))
  {
    var n, t := Reduced_(g, states, stack, path, trees, r, a);
    StartAtBottom(g, states, path, trees, n, r);
    BaseStates(g, states, stack, path, trees, r, a);
    assert SoundOnGoto(g, states, 0, g.start, GotoMove(rows, 0, g.start));
    assert |stack| == |path| == |trees| + 1 && path[0] == 0 && trees[..n] == [];
    hide Canonical, HasGoto, Complete, Walk, PlaceOk, ShiftTo, SoundRows, StackInv, Reducible;
  }

  /** The trees of the right-hand side are replaced by one, of the left-hand side or of what unit
      rules without code make of it. */
  ghost predicate Replaced(g: Grammar, trees: seq<Tree>, r: nat, trees': seq<Tree>) {
    && r < |g.rules| && |g.rules[r].rhs| <= |trees|
    && var n := |trees| - |g.rules[r].rhs|;
       && Roots(g, trees[n..]) == g.rules[r].rhs
       && |trees'| == n + 1 && trees'[..n] == trees[..n]
       && UnitChain(g, g.rules[r].lhs, Root(g, trees'[n]))
       && PostAll(trees) + [Reduced(r)] <= PostAll(trees')
  }

  /** Reducing any other rule goes on with the same tokens on the stack. */
  lemma GotoStep(g: Grammar, states: seq<State>, rows: seq<seq<Action>>, stack: seq<Place>, path: seq<nat>,
                 trees: seq<Tree>, r: nat, a: nat)
    returns (path': seq<nat>, trees': seq<Tree>)
    requires g.Valid() && g.StartOffRhs() && Canonical(g, states) && SoundRows(g, states, rows)
    requires StackInv(g, states, stack, path, trees) && Reducible(g, states, stack, path, r, a)
    requires g.rules[r].lhs != g.start
    ensures AfterReduce(g, rows, stack, r).Continue?
    ensures StackInv(g, states, AfterReduce(g, rows, stack, r).stack, path', trees')
    ensures YieldAll(trees') == YieldAll(trees)
    ensures Replaced(g, trees, r, trees')
    ensures |path'| == |trees'| + 1 && path'[..|trees'|] == path[..|path| - |g.rules[r].rhs|]
  {
    hide *;
    StackParts(g, states, stack, path, trees);
    var n, t := Reduced_(g, states, stack, path, trees, r, a);
    StartAtBottom(g, states, path, trees, n, r);
    BaseStates(g, states, stack, path, trees, r, a);
    WalkBack(g, states, path, trees, n);
    ReducedLhs(g, r);
    PartForest(g, trees, n);
    var base := stack[..n + 1];
    var e, q, t' := GotoFound(g, states, rows, path[n], t);
    PushKeeps(g, states, base, path[..n + 1], trees[..n], t', e, q);
    path', trees' := path[..n + 1] + [q], trees[..n] + [t'];
    PushedOutcome(g, rows, stack, r, path[n], e);
    assert trees'[..n] == trees[..n] && trees'[n] == t';
    PostGrows(trees, n, r, t');
    ReplacedBy(g, trees, r, trees');
  }

  lemma StackParts(g: Grammar, states: seq<State>, stack: seq<Place>, path: seq<nat>, trees: seq<Tree>)
    requires StackInv(g, states, stack, path, trees)
    ensures |stack| == |path| == |trees| + 1 && Walk(g, states, path, trees) && ValidForest(g, trees)
  {
  }

  lemma ReducedLhs(g: Grammar, r: nat)
    requires g.Valid() && r < |g.rules|
    ensures g.Nonterminal(g.rules[r].lhs)
  {
    assert g.ValidRule(g.rules[r]);
  }

  lemma PartForest(g: Grammar, trees: seq<Tree>, n: nat)
    requires ValidForest(g, trees) && n <= |trees|
    ensures ValidForest(g, trees[..n])
  {
  }

  lemma PushedOutcome(g: Grammar, rows: seq<seq<Action>>, stack: seq<Place>, r: nat, s: nat, e: Place)
    requires r < |g.rules| && |g.rules[r].rhs| < |stack| && stack[|stack| - |g.rules[r].rhs| - 1] == At(s)
    requires [e] == Pushed(GotoMove(rows, s, g.rules[r].lhs))
    ensures AfterReduce(g, rows, stack, r) == Continue(stack[..|stack| - |g.rules[r].rhs|] + [e])
  {
    hide GotoMove;
  }

  /** The reduction comes next in postorder. */
  lemma PostGrows(trees: seq<Tree>, n: nat, r: nat, t: Tree)
    requires n <= |trees| && Post(Node(r, trees[n..])) <= Post(t)
    ensures PostAll(trees) + [Reduced(r)] <= PostAll(trees[..n] + [t])
  {
    PostConcat(trees[..n], trees[n..]);
    PostConcat(trees[..n], [t]);
    PostOne(t);
    assert trees[..n] + trees[n..] == trees;
    assert PostAll(trees) + [Reduced(r)] == PostAll(trees[..n]) + Post(Node(r, trees[n..]));
  }

  lemma ReplacedBy(g: Grammar, trees: seq<Tree>, r: nat, trees': seq<Tree>)
    requires r < |g.rules| && |g.rules[r].rhs| <= |trees|
    requires var n := |trees| - |g.rules[r].rhs|;
       && Roots(g, trees[n..]) == g.rules[r].rhs
       && |trees'| == n + 1 && trees'[..n] == trees[..n]
       && UnitChain(g, g.rules[r].lhs, Root(g, trees'[n]))
       && PostAll(trees) + [Reduced(r)] <= PostAll(trees')
    ensures Replaced(g, trees, r, trees')
  {
  }

  /** A reduction never fails: the goto it needs is there.  It goes on with the same tokens on the
      stack, or accepts with the stack at its bottom, at the end of the input, and with those
      tokens derived. */
  lemma ReduceKeeps(g: Grammar, states: seq<State>, rows: seq<seq<Action>>, stack: seq<Place>, path: seq<nat>,
                    trees: seq<Tree>, r: nat, a: nat)
    returns (path': seq<nat>, trees': seq<Tree>)
    requires g.Valid() && g.StartOffRhs() && Canonical(g, states) && SoundRows(g, states, rows)
    requires StackInv(g, states, stack, path, trees) && Reducible(g, states, stack, path, r, a)
    ensures var o := AfterReduce(g, rows, stack, r);
            && o != Failed
            && (o.Continue? ==>
                  && StackInv(g, states, o.stack, path', trees') && YieldAll(trees') == YieldAll(trees)
                  && Replaced(g, trees, r, trees'))
            && (o.Accepted? ==> o.stack == stack[..1] && a == 0 && Derives(g, g.start, YieldAll(trees)))
  {
    path', trees' := [], [];
    if r < |g.rules| && g.rules[r].lhs == g.start {
      AcceptStep(g, states, rows, stack, path, trees, r, a);
    } else {
      path', trees' := GotoStep(g, states, rows, stack, path, trees, r, a);
    }
  }

  /** What the machine accepts is derivable. */
  lemma {:induction false} AcceptedIsDerived(g: Grammar, states: seq<State>, rows: seq<seq<Action>>, stack: seq<Place>,
                                             path: seq<nat>, trees: seq<Tree>, input: seq<nat>, trace: seq<Event>)
    requires g.Valid() && g.StartOffRhs() && Canonical(g, states) && SoundRows(g, states, rows)
    requires StackInv(g, states, stack, path, trees)
    requires Accepts(g, rows, stack, input, trace) && Tokenized(g, input)
    ensures Derives(g, g.start, YieldAll(trees) + input)
    decreases |trace|
  {
    hide Canonical, SoundRows, StackInv, Reducible, TokenMove, AfterReduce;
    var a := NextToken(input);
    var m := TokenMove(g, rows, stack[|stack| - 1], a);
    if m.Reduce_? {
      TopReducible(g, states, rows, stack, path, trees, a);
      var path', trees' := ReduceKeeps(g, states, rows, stack, path, trees, m.r, a);
      var next := AfterReduce(g, rows, stack, m.r);
      if next.Continue? {
        AcceptedIsDerived(g, states, rows, next.stack, path', trees', input, trace[1..]);
      } else {
        assert YieldAll(trees) + input == YieldAll(trees);
      }
    } else {
      var q := ShiftKeeps(g, states, rows, stack, path, trees, a);
      AcceptedIsDerived(g, states, rows, stack + Pushed(m), path + [q], trees + [Leaf(a)], input[1..], trace[1..]);
      assert YieldAll(trees) + [a] + input[1..] == YieldAll(trees) + input;
    }
  }
}
