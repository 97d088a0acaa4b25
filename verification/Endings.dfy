/** Grammars for which the loop of `Parse` ends on every token, right or wrong: those whose rules
    only ever shrink the stack, and those without conflicts. */
module Endings {
  import opened Grammars
  import opened Items
  import opened Actions
  import opened ConfigLists
  import opened Collections
  import opened Conflicts
  import opened Machines
  import opened Soundness
  import opened SoundTables
  import opened Lookaheads
  import opened Exactness
  import opened Completeness
  import opened Loops

  // ---------------------------------------------------------------- rules that shrink the stack

  ghost predicate SingleStep(g: Grammar, x: nat, y: nat) {
    exists r :: 0 <= r < |g.rules| && g.rules[r].rhs == [x] && g.rules[r].lhs == y
  }

  /** p climbs from p[0] by rules with a single symbol, with or without code. */
  ghost predicate SinglePath(g: Grammar, p: seq<nat>) {
    p != [] && forall i | 0 < i < |p| :: SingleStep(g, p[i - 1], p[i])
  }

  /** No right-hand side is empty, and those of a single symbol do not go in circles. */
  ghost predicate Shrinking(g: Grammar) {
    && (forall r | 0 <= r < |g.rules| :: g.rules[r].rhs != [])
    && forall p | SinglePath(g, p) && |p| > 1 :: p[0] != p[|p| - 1]
  }

  lemma SinglePathShort(g: Grammar, p: seq<nat>)
    requires g.Valid() && Shrinking(g) && SinglePath(g, p) && p[0] < g.NSymbol()
    ensures |p| <= g.NSymbol()
  {
    var all := UpTo(g.NSymbol());
    forall i, j | 0 <= i < j < |p|
      ensures p[i] != p[j]
    {
      var q := p[i..j + 1];
      forall k | 0 < k < |q|
        ensures SingleStep(g, q[k - 1], q[k])
      {
        assert SingleStep(g, p[i + k - 1], p[i + k]);
      }
      assert SinglePath(g, q);
    }
    forall i | 0 <= i < |p|
      ensures p[i] in all
    {
      if i > 0 {
        assert SingleStep(g, p[i - 1], p[i]);
        var r :| 0 <= r < |g.rules| && g.rules[r].rhs == [p[i - 1]] && g.rules[r].lhs == p[i];
        assert g.ValidRule(g.rules[r]);
      }
    }
    DistinctBound(p, all);
  }

  /** Climbing on: by a rule with a single symbol, then by unit rules without code. */
  lemma ClimbOn(g: Grammar, p: seq<nat>, y: nat, z: nat) returns (p': seq<nat>)
    requires SinglePath(g, p) && SingleStep(g, p[|p| - 1], y) && UnitChain(g, y, z)
    ensures SinglePath(g, p') && p'[0] == p[0] && p'[|p'| - 1] == z && |p'| > |p|
  {
    var u :| UnitPath(g, u) && u[0] == y && u[|u| - 1] == z;
    p' := p + u;
    forall i | 0 < i < |p'|
      ensures SingleStep(g, p'[i - 1], p'[i])
    {
      if i > |p| {
        assert UnitStep(g, u[i - |p| - 1], u[i - |p|]);
        var r: nat :| UnitRule(g, r, u[i - |p| - 1], u[i - |p|]);
      }
    }
  }

  /** p leads to the symbol on top of the stack. */
  ghost predicate ClimbsTo(g: Grammar, trees: seq<Tree>, p: seq<nat>) {
    trees != [] && p != [] && SinglePath(g, p) && p[0] < g.NSymbol() && p[|p| - 1] == Root(g, trees[|trees| - 1])
  }

  function MostIterations(g: Grammar, n: nat): nat {
    var k: nat := g.NSymbol();
    n * k + 1
  }

  /** How many reductions are left at most: every symbol on the stack can climb past all others, and
      the topmost has come along p. */
  function Left(g: Grammar, n: nat, p: seq<nat>): int {
    if n == 0 then 1 else MostIterations(g, n) + 1 - |p|
  }

  lemma {:induction false} ClimbEnds(g: Grammar, states: seq<State>, rows: seq<seq<Action>>, stack: seq<Place>,
                                     path: seq<nat>, trees: seq<Tree>, a: nat, p: seq<nat>, fuel: nat)
    requires g.Valid() && g.StartOffRhs() && Canonical(g, states) && SoundRows(g, states, rows) && Shrinking(g)
    requires StackInv(g, states, stack, path, trees) && a < g.nterminal
    requires (trees == [] || ClimbsTo(g, trees, p)) && fuel >= Left(g, |trees|, p)
    ensures TokenRun(g, rows, stack, a, fuel).0 != Unfinished
    decreases fuel
  {
    hide Canonical, SoundRows, StackInv, TokenMove, AfterReduce, Shrinking, SinglePath, Reducible, Replaced, UnitChain;
    StackParts(g, states, stack, path, trees);
    LeftPositive(g, trees, p);
    var m := TokenMove(g, rows, stack[|stack| - 1], a);
    if m.Reduce_? {
      TopReducible(g, states, rows, stack, path, trees, a);
      var path', trees' := ReduceKeeps(g, states, rows, stack, path, trees, m.r, a);
      var o := AfterReduce(g, rows, stack, m.r);
      if o.Continue? {
        StackParts(g, states, o.stack, path', trees');
        var p' := Climbed(g, trees, m.r, trees', p);
        ClimbEnds(g, states, rows, o.stack, path', trees', a, p', fuel - 1);
      }
    }
  }

  lemma LeftPositive(g: Grammar, trees: seq<Tree>, p: seq<nat>)
    requires g.Valid() && Shrinking(g) && (trees == [] || ClimbsTo(g, trees, p))
    ensures Left(g, |trees|, p) >= 1
  {
    if trees != [] {
      SinglePathShort(g, p);
      assert |trees| * g.NSymbol() >= g.NSymbol();
    }
  }

  /** A reduction leaves fewer of them. */
  lemma Climbed(g: Grammar, trees: seq<Tree>, r: nat, trees': seq<Tree>, p: seq<nat>) returns (p': seq<nat>)
    requires g.Valid() && Shrinking(g) && Replaced(g, trees, r, trees') && ValidForest(g, trees')
    requires trees == [] || ClimbsTo(g, trees, p)
    ensures ClimbsTo(g, trees', p') && Left(g, |trees'|, p') < Left(g, |trees|, p)
  {
    hide SinglePath, UnitChain, Post, PostAll;
    var d, n := |g.rules[r].rhs|, |trees'|;
    assert g.rules[r].rhs != [] && n == |trees| - d + 1;
    SinglePathShort(g, p);
    if d == 1 {
      assert trees[|trees| - 1..] == [trees[|trees| - 1]];
      assert Roots(g, trees[|trees| - 1..])[0] == Root(g, trees[|trees| - 1]);
      assert SingleStep(g, p[|p| - 1], g.rules[r].lhs);
      p' := ClimbOn(g, p, g.rules[r].lhs, Root(g, trees'[n - 1]));
    } else {
      p' := [Root(g, trees'[n - 1])];
      assert SinglePath(g, p') by { SingleAlone(g, p'[0]); }
      RootBelow(g, trees'[n - 1]);
      Fewer(n, |trees|, g.NSymbol());
    }
  }

  lemma SingleAlone(g: Grammar, x: nat)
    ensures SinglePath(g, [x])
  {
  }

  lemma {:induction false} Fewer(n: nat, m: nat, k: nat)
    requires n < m
    ensures n * k + k <= m * k
  {
    if m == n + 1 {
      assert m * k == n * k + k;
    } else {
      Fewer(n, m - 1, k);
      assert m * k == (m - 1) * k + k;
    }
  }

  lemma RootBelow(g: Grammar, t: Tree)
    requires g.Valid() && ValidTree(g, t)
    ensures Root(g, t) < g.NSymbol()
  {
    if t.Node? { assert g.ValidRule(g.rules[t.rule]); }
  }

  /** If all rules shrink the stack the loop ends, whatever conflicts there were, after no more
      iterations than there are pairs of an entry and a symbol. */
  lemma ShrinkingEnds(g: Grammar, states: seq<State>, rows: seq<seq<Action>>, stack: seq<Place>, path: seq<nat>,
                      trees: seq<Tree>, a: nat)
    requires g.Valid() && g.StartOffRhs() && Canonical(g, states) && SoundRows(g, states, rows) && Shrinking(g)
    requires StackInv(g, states, stack, path, trees) && a < g.nterminal
    ensures TokenRun(g, rows, stack, a, MostIterations(g, |trees|)).0 != Unfinished
  {
    hide Canonical, SoundRows, Shrinking, TokenRun, SinglePath;
    if trees == [] {
      ClimbEnds(g, states, rows, stack, path, trees, a, [], 1);
    } else {
      var p := [Root(g, trees[|trees| - 1])];
      SingleAlone(g, p[0]);
      RootBelow(g, trees[|trees| - 1]);
      ClimbEnds(g, states, rows, stack, path, trees, a, p, MostIterations(g, |trees|));
    }
  }

  // ---------------------------------------------------------------- token after token

  /** With the tokens y shifted the loop ends, whatever the next token is. */
  ghost predicate EndsWithin(g: Grammar, states: seq<State>, rows: seq<seq<Action>>, y: seq<nat>, n: nat) {
    forall stack, path, trees, a: nat |
      StackInv(g, states, stack, path, trees) && YieldAll(trees) == y && a < g.nterminal ::
      TokenRun(g, rows, stack, a, n).0 != Unfinished
  }

  lemma LongerWithin(g: Grammar, states: seq<State>, rows: seq<seq<Action>>, y: seq<nat>, n: nat, m: nat)
    requires EndsWithin(g, states, rows, y, n) && n <= m
    ensures EndsWithin(g, states, rows, y, m)
  {
    hide StackInv, TokenRun;
    forall stack, path, trees, a: nat |
      StackInv(g, states, stack, path, trees) && YieldAll(trees) == y && a < g.nterminal
      ensures TokenRun(g, rows, stack, a, m).0 != Unfinished
    {
      MoreFuel(g, rows, stack, a, n, m);
    }
  }

  /** The stack when a token has been shifted. */
  lemma {:induction false} ShiftedInv(g: Grammar, states: seq<State>, rows: seq<seq<Action>>, stack: seq<Place>,
                                      path: seq<nat>, trees: seq<Tree>, a: nat, fuel: nat)
    returns (path': seq<nat>, trees': seq<Tree>)
    requires g.Valid() && g.StartOffRhs() && Canonical(g, states) && SoundRows(g, states, rows)
    requires StackInv(g, states, stack, path, trees) && a < g.nterminal
    requires TokenRun(g, rows, stack, a, fuel).0 == TokenShifted
    ensures StackInv(g, states, TokenRun(g, rows, stack, a, fuel).1, path', trees')
    ensures YieldAll(trees') == YieldAll(trees) + [a]
    decreases fuel
  {
    hide Canonical, SoundRows, StackInv, TokenMove, AfterReduce, Reducible, Replaced;
    StackParts(g, states, stack, path, trees);
    var m := TokenMove(g, rows, stack[|stack| - 1], a);
    if m.Reduce_? {
      TopReducible(g, states, rows, stack, path, trees, a);
      path', trees' := ReduceKeeps(g, states, rows, stack, path, trees, m.r, a);
      path', trees' := ShiftedInv(g, states, rows, AfterReduce(g, rows, stack, m.r).stack, path', trees', a, fuel - 1);
    } else {
      var q := ShiftKeeps(g, states, rows, stack, path, trees, a);
      path', trees' := path + [q], trees + [Leaf(a)];
    }
  }

  lemma {:induction false} FeedEndsBy(g: Grammar, states: seq<State>, rows: seq<seq<Action>>, stack: seq<Place>,
                                      path: seq<nat>, trees: seq<Tree>, input: seq<nat>, i: nat, fuel: nat)
    requires g.Valid() && g.StartOffRhs() && Canonical(g, states) && SoundRows(g, states, rows)
    requires StackInv(g, states, stack, path, trees) && Tokenized(g, input) && i <= |input|
    requires YieldAll(trees) == input[..i]
    requires forall k | 0 <= k <= |input| :: EndsWithin(g, states, rows, input[..k], fuel)
    ensures FeedEnds(g, rows, stack, input[i..], fuel)
    decreases |input| - i
  {
    hide Canonical, SoundRows, StackInv, TokenRun, YieldAll;
    assert EndsWithin(g, states, rows, input[..i], fuel);
    var run := TokenRun(g, rows, stack, NextToken(input[i..]), fuel);
    if i < |input| && run.0 == TokenShifted {
      assert input[i..][1..] == input[i + 1..] && input[..i + 1] == input[..i] + [input[i]];
      var path', trees' := ShiftedInv(g, states, rows, stack, path, trees, input[i], fuel);
      FeedEndsBy(g, states, rows, run.1, path', trees', input, i + 1, fuel);
    }
  }

  /** Without empty right-hand sides there are no more trees than tokens. */
  lemma {:induction false} TreeHasToken(g: Grammar, t: Tree)
    requires Shrinking(g) && ValidTree(g, t)
    ensures |Yield(t)| >= 1
    decreases t, 1
  {
    if t.Node? {
      assert |Roots(g, t.kids)| == |t.kids|;
      TreesHaveTokens(g, t.kids);
    }
  }

  lemma {:induction false} TreesHaveTokens(g: Grammar, ts: seq<Tree>)
    requires Shrinking(g) && ValidForest(g, ts)
    ensures |YieldAll(ts)| >= |ts|
    decreases ts, 0
  {
    if ts != [] {
      TreeHasToken(g, ts[0]);
      TreesHaveTokens(g, ts[1..]);
    }
  }

  lemma ShrinkingWithin(g: Grammar, states: seq<State>, rows: seq<seq<Action>>, y: seq<nat>, n: nat)
    requires g.Valid() && g.StartOffRhs() && Canonical(g, states) && SoundRows(g, states, rows) && Shrinking(g)
    requires |y| <= n
    ensures EndsWithin(g, states, rows, y, MostIterations(g, n))
  {
    hide Canonical, SoundRows, StackInv, Shrinking, TokenRun;
    forall stack, path, trees, a: nat |
      StackInv(g, states, stack, path, trees) && YieldAll(trees) == y && a < g.nterminal
      ensures TokenRun(g, rows, stack, a, MostIterations(g, n)).0 != Unfinished
    {
      StackParts(g, states, stack, path, trees);
      TreesHaveTokens(g, trees);
      ShrinkingEnds(g, states, rows, stack, path, trees, a);
      if |trees| < n { Fewer(|trees|, n, g.NSymbol()); }
      MoreFuel(g, rows, stack, a, MostIterations(g, |trees|), MostIterations(g, n));
    }
  }

  /** If all rules shrink the stack, an input of n tokens needs no more than n times as many iterations
      for a token as there are symbols, and one. */
  lemma ShrinkingFeedEnds(g: Grammar, states: seq<State>, rows: seq<seq<Action>>, input: seq<nat>)
    requires g.Valid() && g.StartOffRhs() && Canonical(g, states) && SoundRows(g, states, rows) && Shrinking(g)
    requires Tokenized(g, input)
    ensures FeedEnds(g, rows, [At(0)], input, MostIterations(g, |input|))
  {
    hide SoundRows, Shrinking, EndsWithin, FeedEnds, StackInv, Canonical;
    StatesThere(g, states);
    StackInvStart(g, states);
    forall k | 0 <= k <= |input|
      ensures EndsWithin(g, states, rows, input[..k], MostIterations(g, |input|))
    {
      ShrinkingWithin(g, states, rows, input[..k], |input|);
    }
    assert YieldAll([]) == [] && input[0..] == input;
    FeedEndsBy(g, states, rows, [At(0)], [0], [], input, 0, MostIterations(g, |input|));
  }

  // ---------------------------------------------------------------- completing what is on the stack

  ghost predicate Produces(g: Grammar, x: nat) {
    exists t :: ProducedBy(g, x, t)
  }

  ghost predicate ProducedBy(g: Grammar, x: nat, t: Tree) {
    ValidTree(g, t) && Root(g, t) == x && Tokenized(g, Yield(t))
  }

  /** Every symbol on a right-hand side derives some token string, and the start symbol has a rule. */
  ghost predicate Productive(g: Grammar) {
    && (forall r, k | 0 <= r < |g.rules| && 0 <= k < |g.rules[r].rhs| :: Produces(g, g.rules[r].rhs[k]))
    && exists r :: 0 <= r < |g.rules| && g.rules[r].lhs == g.start
  }

  /** Trees of tokens for what stands behind the dot of i. */
  ghost predicate ForestFor(g: Grammar, i: Item, ts: seq<Tree>) {
    ValidForest(g, ts) && Roots(g, ts) == Rest(g, i) && Tokenized(g, YieldAll(ts))
  }

  lemma TokensConcat(g: Grammar, u: seq<nat>, w: seq<nat>)
    ensures Tokenized(g, u + w) <==> Tokenized(g, u) && Tokenized(g, w)
  {
    if Tokenized(g, u + w) {
      forall i | 0 <= i < |u|
        ensures u[i] < g.nterminal
      {
        assert (u + w)[i] == u[i];
      }
      forall i | 0 <= i < |w|
        ensures w[i] < g.nterminal
      {
        assert (u + w)[|u| + i] == w[i];
      }
    }
  }

  lemma ForestCons(g: Grammar, t: Tree, ts: seq<Tree>)
    requires ValidTree(g, t) && ValidForest(g, ts) && Tokenized(g, Yield(t)) && Tokenized(g, YieldAll(ts))
    ensures ValidForest(g, [t] + ts) && Tokenized(g, YieldAll([t] + ts))
    ensures Roots(g, [t] + ts) == [Root(g, t)] + Roots(g, ts)
    ensures YieldAll([t] + ts) == Yield(t) + YieldAll(ts) && PostAll([t] + ts) == Post(t) + PostAll(ts)
  {
    ConsForest(g, t, ts);
    TokensConcat(g, Yield(t), YieldAll(ts));
    assert ([t] + ts)[1..] == ts;
  }

  lemma {:induction false} SomeForest(g: Grammar, i: Item) returns (ts: seq<Tree>)
    requires Productive(g) && i.rule < |g.rules| && i.dot <= |g.rules[i.rule].rhs|
    ensures ForestFor(g, i, ts)
    decreases |g.rules[i.rule].rhs| - i.dot
  {
    if i.dot == |g.rules[i.rule].rhs| {
      ts := [];
    } else {
      var x := g.rules[i.rule].rhs[i.dot];
      assert Produces(g, x);
      var t :| ProducedBy(g, x, t);
      var rest := SomeForest(g, Advance(i));
      ForestCons(g, t, rest);
      ts := [t] + rest;
      assert Rest(g, i) == [x] + Rest(g, Advance(i));
    }
  }

  /** A sentence that begins with the trees on the stack, those of the rest of rule i, and then the
      reduction by i. */
  ghost predicate CompletedBy(g: Grammar, trees: seq<Tree>, i: Item, ts: seq<Tree>, t: Tree) {
    && ValidTree(g, t) && Root(g, t) == g.start && Tokenized(g, Yield(t))
    && PostAll(trees) + PostAll(ts) + [Reduced(i.rule)] <= Post(t)
    && YieldAll(trees) + YieldAll(ts) <= Yield(t)
  }

  ghost predicate Completes(g: Grammar, trees: seq<Tree>, i: Item) {
    && i.rule < |g.rules| && i.dot <= |g.rules[i.rule].rhs|
    && forall ts | ForestFor(g, i, ts) :: exists t :: CompletedBy(g, trees, i, ts, t)
  }

  lemma StartCompletes(g: Grammar, r: nat)
    requires r < |g.rules| && g.rules[r].lhs == g.start
    ensures Completes(g, [], Item(r, 0))
  {
    forall ts | ForestFor(g, Item(r, 0), ts)
      ensures exists t :: CompletedBy(g, [], Item(r, 0), ts, t)
    {
      assert Rest(g, Item(r, 0)) == g.rules[r].rhs;
      assert [] + PostAll(ts) == PostAll(ts) && [] + YieldAll(ts) == YieldAll(ts);
      assert CompletedBy(g, [], Item(r, 0), ts, Node(r, ts));
    }
  }

  /** A rule begun in the state, within a rule that can be completed. */
  lemma ExpansionCompletes(g: Grammar, trees: seq<Tree>, i: Item, j: Item)
    requires Productive(g) && Completes(g, trees, i) && Expands(g, i, j)
    ensures Completes(g, trees, j)
  {
    hide Productive, Completes, ValidTree;
    CompletesParts(g, trees, i);
    var rest := SomeForest(g, Advance(i));
    forall ts | ForestFor(g, j, ts)
      ensures exists t :: CompletedBy(g, trees, j, ts, t)
    {
      var u := Node(j.rule, ts);
      ExpansionTree(g, j, ts);
      ForestCons(g, u, rest);
      assert Rest(g, i) == [Root(g, u)] + Rest(g, Advance(i));
      var t := Completed(g, trees, i, [u] + rest);
      LongerPrefix(PostAll(trees), PostAll(ts), [Reduced(j.rule)], PostAll(rest), [Reduced(i.rule)], Post(t));
      assert YieldAll(trees) + YieldAll([u] + rest) == (YieldAll(trees) + YieldAll(ts)) + YieldAll(rest);
      assert CompletedBy(g, trees, j, ts, t);
    }
    CompletesFrom(g, trees, j);
  }

  lemma CompletesParts(g: Grammar, trees: seq<Tree>, i: Item)
    requires Completes(g, trees, i)
    ensures i.rule < |g.rules| && i.dot <= |g.rules[i.rule].rhs|
  {
  }

  lemma CompletesFrom(g: Grammar, trees: seq<Tree>, i: Item)
    requires i.rule < |g.rules| && i.dot <= |g.rules[i.rule].rhs|
    requires forall ts | ForestFor(g, i, ts) :: exists t :: CompletedBy(g, trees, i, ts, t)
    ensures Completes(g, trees, i)
  {
  }

  lemma Completed(g: Grammar, trees: seq<Tree>, i: Item, ts: seq<Tree>) returns (t: Tree)
    requires Completes(g, trees, i) && ForestFor(g, i, ts)
    ensures CompletedBy(g, trees, i, ts, t)
  {
    t :| CompletedBy(g, trees, i, ts, t);
  }

  lemma ExpansionTree(g: Grammar, j: Item, ts: seq<Tree>)
    requires j.rule < |g.rules| && j.dot == 0 && ForestFor(g, j, ts)
    ensures var u := Node(j.rule, ts); ValidTree(g, u) && Root(g, u) == g.rules[j.rule].lhs && Tokenized(g, Yield(u))
  {
    assert Rest(g, j) == g.rules[j.rule].rhs;
  }

  lemma LongerPrefix<T>(a: seq<T>, b: seq<T>, c: seq<T>, rest: seq<T>, d: seq<T>, all: seq<T>)
    requires a + ((b + c) + rest) + d <= all
    ensures a + b + c <= all
  {
    assert a + ((b + c) + rest) + d == (a + b + c) + (rest + d);
  }

  lemma YieldOne(t: Tree)
    ensures YieldAll([t]) == Yield(t)
  {
    assert [t][1..] == [];
  }

  /** A rule whose dot has moved over the topmost tree. */
  lemma MovedCompletes(g: Grammar, trees: seq<Tree>, i: Item, t: Tree)
    requires Completes(g, trees, i) && Shifts(g, i, Root(g, t)) && ValidTree(g, t) && Tokenized(g, Yield(t))
    ensures Completes(g, trees + [t], Advance(i))
  {
    hide Completes, ValidTree, Post, PostAll, Yield, YieldAll;
    CompletesParts(g, trees, i);
    forall ts | ForestFor(g, Advance(i), ts)
      ensures exists u :: CompletedBy(g, trees + [t], Advance(i), ts, u)
    {
      ForestCons(g, t, ts);
      assert Rest(g, i) == [Root(g, t)] + Rest(g, Advance(i));
      var u := Completed(g, trees, i, [t] + ts);
      PostConcat(trees, [t]);
      PostOne(t);
      YieldAllConcat(trees, [t]);
      YieldOne(t);
      assert PostAll(trees) + PostAll([t] + ts) == PostAll(trees + [t]) + PostAll(ts);
      assert YieldAll(trees) + YieldAll([t] + ts) == YieldAll(trees + [t]) + YieldAll(ts);
      assert CompletedBy(g, trees + [t], Advance(i), ts, u);
    }
    CompletesFrom(g, trees + [t], Advance(i));
  }

  /** If the kernel of a state can be completed, so can all of its items. */
  lemma StateCompletes(g: Grammar, st: State, trees: seq<Tree>)
    requires Productive(g) && StateOk(g, st) && forall i | i in Kernel(st) :: Completes(g, trees, i)
    ensures forall i | i in st.cfp :: Completes(g, trees, i)
  {
    hide Productive, Completes;
    KernelInItems(g, st);
    var done := set i | i in ItemsOf(st) && Completes(g, trees, i);
    forall i, j | i in done && Expands(g, i, j)
      ensures j in done
    {
      ExpansionCompletes(g, trees, i, j);
    }
    ClosureIsLeast(g, Kernel(st), done);
    assert forall i | i in st.cfp :: i in ItemsOf(st);
  }

  lemma {:induction false} WalkCompletes(g: Grammar, states: seq<State>, path: seq<nat>, trees: seq<Tree>, n: nat)
    requires Productive(g) && Canonical(g, states) && Walk(g, states, path, trees) && n <= |trees|
    requires forall k | 0 <= k < |trees| :: ValidTree(g, trees[k]) && Tokenized(g, Yield(trees[k]))
    ensures forall i | i in states[path[n]].cfp :: Completes(g, trees[..n], i)
  {
    hide Productive, Completes, ValidTree, StateOk, HasGoto, ActionsOk, ShiftsComplete, DistinctKernels;
    assert StateOk(g, states[path[n]]);
    if n == 0 {
      forall i | i in Kernel(states[0])
        ensures Completes(g, [], i)
      {
        StartCompletes(g, i.rule);
      }
    } else {
      WalkCompletes(g, states, path, trees, n - 1);
      assert ShiftTo(g, states, path[n - 1], Root(g, trees[n - 1]), path[n - 1 + 1]);
      assert trees[..n] == trees[..n - 1] + [trees[n - 1]];
      forall i | i in Kernel(states[path[n]])
        ensures Completes(g, trees[..n], i)
      {
        var j :| j in ItemsOf(states[path[n - 1]]) && Shifts(g, j, Root(g, trees[n - 1])) && i == Advance(j);
        MovedCompletes(g, trees[..n - 1], j, trees[n - 1]);
      }
    }
    StateCompletes(g, states[path[n]], trees[..n]);
  }

  lemma {:induction false} TokensOfTrees(g: Grammar, trees: seq<Tree>)
    requires Tokenized(g, YieldAll(trees))
    ensures forall k | 0 <= k < |trees| :: Tokenized(g, Yield(trees[k]))
  {
    if trees != [] {
      TokensConcat(g, Yield(trees[0]), YieldAll(trees[1..]));
      TokensOfTrees(g, trees[1..]);
    }
  }

  /** So what is on the stack is the beginning of a sentence. */
  lemma StackBeginsSentence(g: Grammar, states: seq<State>, path: seq<nat>, trees: seq<Tree>) returns (t: Tree)
    requires g.Valid() && Productive(g) && Canonical(g, states) && Walk(g, states, path, trees)
    requires ValidForest(g, trees) && Tokenized(g, YieldAll(trees))
    ensures ValidTree(g, t) && Root(g, t) == g.start && Tokenized(g, Yield(t))
    ensures PostAll(trees) <= Post(t) && YieldAll(trees) <= Yield(t)
  {
    hide Productive, Completes, ValidTree, Canonical, Walk;
    var n := |trees|;
    TokensOfTrees(g, trees);
    WalkCompletes(g, states, path, trees, n);
    var i := SomeItem(g, states, path, trees);
    assert trees[..n] == trees;
    CompletesParts(g, trees, i);
    var ts := SomeForest(g, i);
    t := Completed(g, trees, i, ts);
    assert PostAll(trees) <= PostAll(trees) + PostAll(ts) + [Reduced(i.rule)];
    assert YieldAll(trees) <= YieldAll(trees) + YieldAll(ts);
  }

  lemma SomeItem(g: Grammar, states: seq<State>, path: seq<nat>, trees: seq<Tree>) returns (i: Item)
    requires Productive(g) && Canonical(g, states) && Walk(g, states, path, trees)
    ensures |path| == |trees| + 1 && path[|trees|] < |states| && i in states[path[|trees|]].cfp
  {
    var n := |trees|;
    var st := states[path[n]];
    assert StateOk(g, st);
    KernelInItems(g, st);
    if n == 0 {
      var r :| 0 <= r < |g.rules| && g.rules[r].lhs == g.start;
      i := Item(r, 0);
      assert i in Kernel(st);
    } else {
      assert ShiftTo(g, states, path[n - 1], Root(g, trees[n - 1]), path[n - 1 + 1]);
      var j :| j in states[path[n - 1]].cfp && Shifts(g, j, Root(g, trees[n - 1]));
      assert j in ItemsOf(states[path[n - 1]]);
      i := Advance(j);
      assert i in Kernel(st);
    }
    assert i in ItemsOf(st);
  }

  // ---------------------------------------------------------------- between two shifts

  /** The number of events before the shift that follows m others. */
  function Span(t: seq<Event>, m: nat): nat {
    if t == [] then 0
    else if t[0].Shifted? then (if m == 0 then 0 else 1 + Span(t[1..], m - 1))
    else 1 + Span(t[1..], m)
  }

  function Shifts_(t: seq<Event>): nat {
    if t == [] then 0 else (if t[0].Shifted? then 1 else 0) + Shifts_(t[1..])
  }

  lemma {:induction false} SpanPrefix(p: seq<Event>, t: seq<Event>, m: nat)
    requires p <= t && Shifts_(p) <= m
    ensures Span(t, m) >= |p|
  {
    if p != [] {
      assert p[0] == t[0] && p[1..] <= t[1..];
      SpanPrefix(p[1..], t[1..], if p[0].Shifted? then m - 1 else m);
    }
  }

  lemma {:induction false} ShiftsConcat(p: seq<Event>, q: seq<Event>)
    ensures Shifts_(p + q) == Shifts_(p) + Shifts_(q)
  {
    if p == [] {
      assert p + q == q;
    } else {
      assert (p + q)[1..] == p[1..] + q;
      ShiftsConcat(p[1..], q);
    }
  }

  /** A tree shifts its leaves. */
  lemma {:induction false} ShiftsOfTree(t: Tree)
    ensures Shifts_(Post(t)) == |Yield(t)|
    decreases t, 1
  {
    if t.Node? {
      ShiftsOfForest(t.kids);
      ShiftsConcat(PostAll(t.kids), [Reduced(t.rule)]);
    }
  }

  lemma {:induction false} ShiftsOfForest(ts: seq<Tree>)
    ensures Shifts_(PostAll(ts)) == |YieldAll(ts)|
    decreases ts, 0
  {
    if ts != [] {
      ShiftsOfTree(ts[0]);
      ShiftsOfForest(ts[1..]);
      ShiftsConcat(Post(ts[0]), PostAll(ts[1..]));
    }
  }

  /** The machine does not look ahead: what it does until it takes the token behind y is determined by
      y and that token. */
  lemma {:induction false} SameSpan(g: Grammar, rows: seq<seq<Action>>, stack: seq<Place>, y: seq<nat>, z: seq<nat>,
                                    z': seq<nat>, t: seq<Event>, t': seq<Event>)
    requires Accepts(g, rows, stack, y + z, t) && Accepts(g, rows, stack, y + z', t')
    requires NextToken(z) == NextToken(z')
    ensures Span(t, |y|) == Span(t', |y|)
    decreases |t|
  {
    hide TokenMove, AfterReduce, Pushed;
    assert y == [] ==> y + z == z && y + z' == z';
    assert NextToken(y + z) == NextToken(y + z');
    var m := TokenMove(g, rows, stack[|stack| - 1], NextToken(y + z));
    if m.Reduce_? {
      var o := AfterReduce(g, rows, stack, m.r);
      if o.Continue? { SameSpan(g, rows, o.stack, y, z, z', t[1..], t'[1..]); }
    } else if y != [] {
      assert (y + z)[1..] == y[1..] + z && (y + z')[1..] == y[1..] + z';
      SameSpan(g, rows, stack + Pushed(m), y[1..], z, z', t[1..], t'[1..]);
    }
  }

  /** A bound for all sentences that begin with y. */
  ghost predicate SpanBound(g: Grammar, rows: seq<seq<Action>>, y: seq<nat>, b: nat, n: nat) {
    forall z, t | NextToken(z) < b && Accepts(g, rows, [At(0)], y + z, t) :: Span(t, |y|) <= n
  }

  lemma {:induction false} Bounded(g: Grammar, rows: seq<seq<Action>>, y: seq<nat>, b: nat) returns (n: nat)
    ensures SpanBound(g, rows, y, b, n)
  {
    hide Accepts, Span;
    if b == 0 {
      n := 0;
    } else {
      n := Bounded(g, rows, y, b - 1);
      if z, t :| NextToken(z) == b - 1 && Accepts(g, rows, [At(0)], y + z, t) {
        forall z', t' | NextToken(z') == b - 1 && Accepts(g, rows, [At(0)], y + z', t')
          ensures Span(t', |y|) == Span(t, |y|)
        {
          SameSpan(g, rows, [At(0)], y, z, z', t, t');
        }
        n := if Span(t, |y|) > n then Span(t, |y|) else n;
      }
    }
  }

  // ---------------------------------------------------------------- grammars without conflicts

  /** However far the machine on the compressed rows gets with a token, right or wrong, it has made no
      more reductions than the stack can hold at the beginning of a sentence with these tokens. */
  lemma {:induction false} TokenEnds(b: Build, stack: seq<Place>, path: seq<nat>, trees: seq<Tree>, a: nat, n: nat,
                                     fuel: nat)
    requires b.Ok() && AllLive(b.rows) && Productive(b.g) && a < b.g.nterminal
    requires StackInv(b.g, b.states, stack, path, trees) && Tokenized(b.g, YieldAll(trees))
    requires SpanBound(b.g, b.rows, YieldAll(trees), b.g.nterminal, n) && |PostAll(trees)| + fuel > n
    ensures TokenRun(b.g, b.res, stack, a, fuel).0 != Unfinished
    decreases fuel
  {
    hide *;
    StackParts(b.g, b.states, stack, path, trees);
    StackSpan(b, path, trees, n);
    FirstOfRun(b.g, b.res, stack, a, fuel);
    var m := TokenMove(b.g, b.res, stack[|stack| - 1], a);
    if m.Reduce_? && AfterReduce(b.g, b.res, stack, m.r).Continue? {
      var path', trees' := PostLonger(b, stack, path, trees, a, m.r);
      TokenEnds(b, AfterReduce(b.g, b.res, stack, m.r).stack, path', trees', a, n, fuel - 1);
    }
  }

  lemma FirstOfRun(g: Grammar, rows: seq<seq<Action>>, stack: seq<Place>, a: nat, fuel: nat)
    requires stack != [] && fuel > 0
    ensures var m := TokenMove(g, rows, stack[|stack| - 1], a);
            if m.Reduce_? && AfterReduce(g, rows, stack, m.r).Continue? then
              TokenRun(g, rows, stack, a, fuel).0 ==
                TokenRun(g, rows, AfterReduce(g, rows, stack, m.r).stack, a, fuel - 1).0
            else TokenRun(g, rows, stack, a, fuel).0 != Unfinished
  {
    hide TokenMove, AfterReduce, Pushed;
  }

  /** A reduction adds an event to what the stack holds. */
  lemma PostLonger(b: Build, stack: seq<Place>, path: seq<nat>, trees: seq<Tree>, a: nat, r: nat)
    returns (path': seq<nat>, trees': seq<Tree>)
    requires b.Ok() && StackInv(b.g, b.states, stack, path, trees) && a < b.g.nterminal && stack != []
    requires TokenMove(b.g, b.res, stack[|stack| - 1], a) == Reduce_(r) && AfterReduce(b.g, b.res, stack, r).Continue?
    ensures StackInv(b.g, b.states, AfterReduce(b.g, b.res, stack, r).stack, path', trees')
    ensures YieldAll(trees') == YieldAll(trees) && |PostAll(trees')| > |PostAll(trees)|
  {
    hide *;
    ParserOk(b);
    CompressedRowsSound(b);
    TopReducible(b.g, b.states, b.res, stack, path, trees, a);
    path', trees' := ReduceKeeps(b.g, b.states, b.res, stack, path, trees, r, a);
    ReplacedPost(b.g, trees, r, trees');
  }

  lemma ReplacedPost(g: Grammar, trees: seq<Tree>, r: nat, trees': seq<Tree>)
    requires Replaced(g, trees, r, trees')
    ensures |PostAll(trees')| > |PostAll(trees)|
  {
  }

  lemma ConflictlessOf(b: Build)
    requires b.Ok() && AllLive(b.rows)
    ensures Conflictless(b.g, b.states, b.fws, b.rows)
  {
  }

  lemma StackSpan(b: Build, path: seq<nat>, trees: seq<Tree>, n: nat)
    requires b.Ok() && AllLive(b.rows) && Productive(b.g) && Walk(b.g, b.states, path, trees)
    requires ValidForest(b.g, trees) && Tokenized(b.g, YieldAll(trees))
    requires SpanBound(b.g, b.rows, YieldAll(trees), b.g.nterminal, n)
    ensures |PostAll(trees)| <= n
  {
    hide Build.Ok, AllLive, Productive, Walk, ValidForest, Accepts, Post, PostAll, Span, Canonical, Conflictless;
    ParserOk(b);
    ConflictlessOf(b);
    var g, y := b.g, YieldAll(trees);
    var t := StackBeginsSentence(g, b.states, path, trees);
    TreeIsAccepted(g, b.states, b.fws, b.rows, t);
    var z := Yield(t)[|y|..];
    assert Yield(t) == y + z;
    TokensConcat(g, y, z);
    ShiftsOfForest(trees);
    SpanPrefix(PostAll(trees), Post(t), |y|);
    assert NextToken(z) < g.nterminal;
  }

  /** Without conflicts the loop ends on every token, right or wrong, if every symbol derives some token
      string; how soon depends on the tokens shifted alone. */
  lemma ConflictlessEnds(b: Build, y: seq<nat>) returns (n: nat)
    requires b.Ok() && AllLive(b.rows) && Productive(b.g) && Tokenized(b.g, y)
    ensures EndsWithin(b.g, b.states, b.res, y, n)
  {
    hide Build.Ok, AllLive, Productive, StackInv, SpanBound, TokenRun;
    var k := Bounded(b.g, b.rows, y, b.g.nterminal);
    n := k + 1;
    forall stack, path, trees, a: nat |
      StackInv(b.g, b.states, stack, path, trees) && YieldAll(trees) == y && a < b.g.nterminal
      ensures TokenRun(b.g, b.res, stack, a, n).0 != Unfinished
    {
      TokenEnds(b, stack, path, trees, a, k, n);
    }
  }

  lemma {:induction false} ConflictlessPrefixes(b: Build, input: seq<nat>, k: nat) returns (n: nat)
    requires b.Ok() && AllLive(b.rows) && Productive(b.g) && Tokenized(b.g, input) && k <= |input|
    ensures forall i | 0 <= i <= k :: EndsWithin(b.g, b.states, b.res, input[..i], n)
  {
    hide Build.Ok, AllLive, Productive, EndsWithin;
    n := ConflictlessEnds(b, input[..k]);
    if k > 0 {
      var m := ConflictlessPrefixes(b, input, k - 1);
      var all := if n < m then m else n;
      forall i | 0 <= i <= k
        ensures EndsWithin(b.g, b.states, b.res, input[..i], all)
      {
        LongerWithin(b.g, b.states, b.res, input[..i], if i < k then m else n, all);
      }
      n := all;
    }
  }

  /** So the parser takes or rejects every input. */
  lemma ConflictlessFeedEnds(b: Build, input: seq<nat>) returns (fuel: nat)
    requires b.Ok() && AllLive(b.rows) && Productive(b.g) && Tokenized(b.g, input)
    ensures FeedEnds(b.g, b.res, [At(0)], input, fuel)
  {
    hide Build.Ok, AllLive, Productive, EndsWithin, StackInv, SoundRows, FeedEnds;
    ParserOk(b);
    StatesThere(b.g, b.states);
    CompressedRowsSound(b);
    StackInvStart(b.g, b.states);
    fuel := ConflictlessPrefixes(b, input, |input|);
    assert YieldAll([]) == [] && input[0..] == input;
    FeedEndsBy(b.g, b.states, b.res, [At(0)], [0], [], input, 0, fuel);
  }

  lemma StatesThere(g: Grammar, states: seq<State>)
    requires Canonical(g, states)
    ensures |states| > 0
  {
  }
}
