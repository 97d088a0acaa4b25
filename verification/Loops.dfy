/** When the loop of `Parse` ends.  It need not: a rule with an empty right-hand side can be a
    default and be reduced over and over on a token that is an error. */
module Loops {
  import opened Grammars
  import opened Items
  import opened Actions
  import opened ConfigLists
  import opened Conflicts
  import opened Machines

  /** The loop ends with the token shifted, accepted or wrong. */
  ghost predicate Ends(g: Grammar, rows: seq<seq<Action>>, stack: seq<Place>, a: nat) {
    exists fuel: nat :: !Going(g, rows, stack, a, fuel)
  }

  /** After n reductions it still goes on. */
  predicate Going(g: Grammar, rows: seq<seq<Action>>, stack: seq<Place>, a: nat, n: nat) {
    TokenRun(g, rows, stack, a, n).0 == Unfinished
  }

  /** The stack after n reductions. */
  function After(g: Grammar, rows: seq<seq<Action>>, stack: seq<Place>, a: nat, n: nat): seq<Place> {
    TokenRun(g, rows, stack, a, n).1
  }

  lemma {:induction false} Split(g: Grammar, rows: seq<seq<Action>>, stack: seq<Place>, a: nat, n: nat, m: nat)
    requires Going(g, rows, stack, a, n)
    ensures var all, rest := TokenRun(g, rows, stack, a, n + m),
                             TokenRun(g, rows, After(g, rows, stack, a, n), a, m);
            all.0 == rest.0 && all.1 == rest.1
    decreases n
  {
    hide TokenMove, AfterReduce, Pushed;
    if n > 0 {
      Split(g, rows, AfterReduce(g, rows, stack, TokenMove(g, rows, stack[|stack| - 1], a).r).stack, a, n - 1, m);
    }
  }

  lemma {:induction false} Earlier(g: Grammar, rows: seq<seq<Action>>, stack: seq<Place>, a: nat, n: nat, k: nat)
    requires Going(g, rows, stack, a, n) && k <= n
    ensures Going(g, rows, stack, a, k)
    decreases n
  {
    hide TokenMove, AfterReduce, Pushed;
    if 0 < k {
      Earlier(g, rows, AfterReduce(g, rows, stack, TokenMove(g, rows, stack[|stack| - 1], a).r).stack, a, n - 1, k - 1);
    }
  }

  /** Once it has ended, more steps change nothing. */
  lemma {:induction false} MoreFuel(g: Grammar, rows: seq<seq<Action>>, stack: seq<Place>, a: nat, n: nat, m: nat)
    requires TokenRun(g, rows, stack, a, n).0 != Unfinished && n <= m
    ensures TokenRun(g, rows, stack, a, m) == TokenRun(g, rows, stack, a, n)
    decreases n
  {
    hide TokenMove, AfterReduce, Pushed;
    if stack != [] {
      var move := TokenMove(g, rows, stack[|stack| - 1], a);
      if move.Reduce_? && AfterReduce(g, rows, stack, move.r).Continue? {
        MoreFuel(g, rows, AfterReduce(g, rows, stack, move.r).stack, a, n - 1, m - 1);
      }
    }
  }

  /** The loop ends for each token handed over, in no more than `fuel` steps, until one is not taken. */
  ghost predicate FeedEnds(g: Grammar, rows: seq<seq<Action>>, stack: seq<Place>, input: seq<nat>, fuel: nat)
    decreases |input|
  {
    var run := TokenRun(g, rows, stack, NextToken(input), fuel);
    && run.0 != Unfinished
    && (input != [] && run.0 == TokenShifted ==> FeedEnds(g, rows, run.1, input[1..], fuel))
  }

  lemma {:induction false} FeedMoreFuel(g: Grammar, rows: seq<seq<Action>>, stack: seq<Place>, input: seq<nat>, n: nat,
                                        m: nat)
    requires FeedEnds(g, rows, stack, input, n) && n <= m
    ensures FeedAll(g, rows, stack, input, m) == FeedAll(g, rows, stack, input, n)
    decreases |input|
  {
    hide TokenRun;
    MoreFuel(g, rows, stack, NextToken(input), n, m);
    var run := TokenRun(g, rows, stack, NextToken(input), n);
    if input != [] && run.0 == TokenShifted { FeedMoreFuel(g, rows, run.1, input[1..], n, m); }
  }

  /** It does for an input that is accepted. */
  lemma {:induction false} AcceptedEnds(g: Grammar, rows: seq<seq<Action>>, stack: seq<Place>, input: seq<nat>,
                                        fuel: nat)
    requires FeedAll(g, rows, stack, input, fuel).0
    ensures FeedEnds(g, rows, stack, input, fuel)
    decreases |input|
  {
    hide TokenRun;
    if input != [] { AcceptedEnds(g, rows, TokenRun(g, rows, stack, input[0], fuel).1, input[1..], fuel); }
  }

  // ---------------------------------------------------------------- what is below the top

  /** A reduction does the same on top of other entries. */
  lemma ReduceAbove(g: Grammar, rows: seq<seq<Action>>, base: seq<Place>, u: seq<Place>, r: nat)
    requires AfterReduce(g, rows, u, r).Continue?
    ensures AfterReduce(g, rows, base + u, r) == Continue(base + AfterReduce(g, rows, u, r).stack)
  {
    hide GotoMove;
    var n := |u| - |g.rules[r].rhs|;
    assert (base + u)[..|base| + n] == base + u[..n];
  }

  lemma ReduceWithin(g: Grammar, rows: seq<seq<Action>>, base: seq<Place>, u: seq<Place>, r: nat)
    requires AfterReduce(g, rows, base + u, r).Continue?
    requires |AfterReduce(g, rows, base + u, r).stack| >= |base| + 2
    ensures AfterReduce(g, rows, u, r).Continue? && |AfterReduce(g, rows, u, r).stack| >= 2
    ensures AfterReduce(g, rows, base + u, r).stack == base + AfterReduce(g, rows, u, r).stack
  {
    hide GotoMove;
    var n := |u| - |g.rules[r].rhs|;
    assert (base + u)[..|base| + n] == base + u[..n];
  }

  lemma {:induction false} RunAbove(g: Grammar, rows: seq<seq<Action>>, base: seq<Place>, u: seq<Place>, a: nat, n: nat)
    requires u != [] && Going(g, rows, u, a, n)
    ensures Going(g, rows, base + u, a, n)
    ensures After(g, rows, base + u, a, n) == base + After(g, rows, u, a, n)
    decreases n
  {
    hide TokenMove, AfterReduce, Pushed;
    if n > 0 {
      var r := TokenMove(g, rows, u[|u| - 1], a).r;
      ReduceAbove(g, rows, base, u, r);
      NotEmptied(g, rows, u, r);
      RunAbove(g, rows, base, AfterReduce(g, rows, u, r).stack, a, n - 1);
    }
  }

  lemma NotEmptied(g: Grammar, rows: seq<seq<Action>>, stack: seq<Place>, r: nat)
    requires AfterReduce(g, rows, stack, r).Continue?
    ensures |AfterReduce(g, rows, stack, r).stack| >= 2
  {
  }

  /** A run that never goes below u is a run of u. */
  lemma {:induction false} RunWithin(g: Grammar, rows: seq<seq<Action>>, base: seq<Place>, u: seq<Place>, a: nat,
                                     n: nat)
    requires u != [] && Going(g, rows, base + u, a, n)
    requires forall k: nat | 0 < k <= n :: |After(g, rows, base + u, a, k)| >= |base| + 2
    ensures Going(g, rows, u, a, n) && After(g, rows, base + u, a, n) == base + After(g, rows, u, a, n)
    decreases n
  {
    hide TokenMove, AfterReduce, Pushed;
    if n > 0 {
      var r := TokenMove(g, rows, u[|u| - 1], a).r;
      var next := AfterReduce(g, rows, base + u, r).stack;
      FirstStep(g, rows, base + u, a, n);
      assert |After(g, rows, base + u, a, 1)| >= |base| + 2;
      ReduceWithin(g, rows, base, u, r);
      var u' := AfterReduce(g, rows, u, r).stack;
      forall k: nat | 0 < k <= n - 1
        ensures |After(g, rows, base + u', a, k)| >= |base| + 2
      {
        Earlier(g, rows, base + u, a, n, 1);
        Split(g, rows, base + u, a, 1, k);
        assert |After(g, rows, base + u, a, 1 + k)| >= |base| + 2;
      }
      RunWithin(g, rows, base, u', a, n - 1);
    }
  }

  lemma FirstStep(g: Grammar, rows: seq<seq<Action>>, stack: seq<Place>, a: nat, n: nat)
    requires Going(g, rows, stack, a, n) && n > 0
    ensures stack != [] && TokenMove(g, rows, stack[|stack| - 1], a).Reduce_?
    ensures var o := AfterReduce(g, rows, stack, TokenMove(g, rows, stack[|stack| - 1], a).r);
            && o.Continue? && After(g, rows, stack, a, 1) == o.stack
            && Going(g, rows, o.stack, a, n - 1)
  {
    hide TokenMove, AfterReduce, Pushed;
  }

  // ---------------------------------------------------------------- coming back

  /** From a stack of the two places s and q the machine gets, in n reductions, to a stack with s and q
      on top. */
  ghost predicate ComesBack(g: Grammar, rows: seq<seq<Action>>, a: nat, s: Place, q: Place, n: nat) {
    && n > 0 && Going(g, rows, [s, q], a, n)
    && OnTop(After(g, rows, [s, q], a, n), s, q)
  }

  predicate OnTop(stack: seq<Place>, s: Place, q: Place) {
    |stack| >= 2 && stack[|stack| - 2] == s && stack[|stack| - 1] == q
  }

  ghost predicate Circles(g: Grammar, rows: seq<seq<Action>>, a: nat, s: Place, q: Place) {
    exists n :: ComesBack(g, rows, a, s, q, n)
  }

  lemma {:induction false} CirclesForever(g: Grammar, rows: seq<seq<Action>>, base: seq<Place>, a: nat, s: Place,
                                          q: Place, n: nat, k: nat)
    requires ComesBack(g, rows, a, s, q, n)
    ensures Going(g, rows, base + [s, q], a, k)
    decreases k
  {
    hide TokenRun;
    RunAbove(g, rows, base, [s, q], a, n);
    if k <= n {
      Earlier(g, rows, base + [s, q], a, n, k);
    } else {
      var st := After(g, rows, [s, q], a, n);
      Split(g, rows, base + [s, q], a, n, k - n);
      assert base + st == (base + st[..|st| - 2]) + [s, q];
      CirclesForever(g, rows, base + st[..|st| - 2], a, s, q, n, k - n);
    }
  }

  // ---------------------------------------------------------------- a run without end comes back

  ghost predicate Endless(g: Grammar, rows: seq<seq<Action>>, stack: seq<Place>, a: nat) {
    forall n: nat :: Going(g, rows, stack, a, n)
  }

  /** From time n on the stack is never lower. */
  ghost predicate Low(g: Grammar, rows: seq<seq<Action>>, stack: seq<Place>, a: nat, n: nat) {
    forall m: nat | n <= m :: |After(g, rows, stack, a, n)| <= |After(g, rows, stack, a, m)|
  }

  lemma {:induction false} NextLow(g: Grammar, rows: seq<seq<Action>>, stack: seq<Place>, a: nat, k: nat)
    returns (n: nat)
    ensures n >= k && Low(g, rows, stack, a, n)
    decreases |After(g, rows, stack, a, k)|
  {
    hide After;
    if m: nat :| k <= m && |After(g, rows, stack, a, m)| < |After(g, rows, stack, a, k)| {
      n := NextLow(g, rows, stack, a, m);
    } else {
      n := k;
    }
  }

  ghost predicate LowTimes(g: Grammar, rows: seq<seq<Action>>, stack: seq<Place>, a: nat, times: seq<nat>) {
    && (forall i | 0 <= i < |times| :: times[i] > 0 && Low(g, rows, stack, a, times[i]))
    && forall i, j | 0 <= i < j < |times| :: times[i] < times[j]
  }

  lemma {:induction false} ManyLows(g: Grammar, rows: seq<seq<Action>>, stack: seq<Place>, a: nat, c: nat)
    returns (times: seq<nat>)
    ensures |times| == c && LowTimes(g, rows, stack, a, times)
  {
    hide Low;
    if c == 0 {
      times := [];
    } else {
      var init := ManyLows(g, rows, stack, a, c - 1);
      var n := NextLow(g, rows, stack, a, if c == 1 then 1 else init[c - 2] + 1);
      times := init + [n];
    }
  }

  /** The places that can be on top while the machine goes on. */
  ghost function Tops(g: Grammar, rows: seq<seq<Action>>): set<Place> {
    (set s | 0 <= s < |rows| :: At(s)) + (set r | 0 <= r < |g.rules| :: Pending(r))
  }

  ghost function Pairs(g: Grammar, rows: seq<seq<Action>>): set<(Place, Place)> {
    set s, q | 0 <= s < |rows| && q in Tops(g, rows) :: (At(s), q)
  }

  function TopTwo(stack: seq<Place>): (Place, Place)
    requires |stack| >= 2
  {
    (stack[|stack| - 2], stack[|stack| - 1])
  }

  lemma TopTwoKnown(g: Grammar, rows: seq<seq<Action>>, stack: seq<Place>, a: nat, n: nat)
    requires Endless(g, rows, stack, a) && n > 0
    ensures |After(g, rows, stack, a, n)| >= 2
    ensures TopTwo(After(g, rows, stack, a, n)) in Pairs(g, rows)
  {
    hide TokenRun, After, Going;
    var was, now := After(g, rows, stack, a, n - 1), After(g, rows, stack, a, n);
    assert Going(g, rows, stack, a, n - 1) && Going(g, rows, stack, a, n) && Going(g, rows, stack, a, n + 1);
    OneReduction(g, rows, stack, a, n - 1);
    OneReduction(g, rows, stack, a, n);
    PushedPair(g, rows, was, TokenMove(g, rows, was[|was| - 1], a).r);
    TopValid(g, rows, now, a);
  }

  /** The n-th reduction. */
  lemma OneReduction(g: Grammar, rows: seq<seq<Action>>, stack: seq<Place>, a: nat, n: nat)
    requires Going(g, rows, stack, a, n) && Going(g, rows, stack, a, n + 1)
    ensures var was := After(g, rows, stack, a, n);
            && was != [] && TokenMove(g, rows, was[|was| - 1], a).Reduce_?
            && AfterReduce(g, rows, was, TokenMove(g, rows, was[|was| - 1], a).r) ==
                 Continue(After(g, rows, stack, a, n + 1))
  {
    hide TokenMove, AfterReduce, Pushed;
    Split(g, rows, stack, a, n, 1);
    FirstStep(g, rows, After(g, rows, stack, a, n), a, 1);
  }

  lemma PushedPair(g: Grammar, rows: seq<seq<Action>>, was: seq<Place>, r: nat)
    requires AfterReduce(g, rows, was, r).Continue?
    ensures var now := AfterReduce(g, rows, was, r).stack;
            |now| >= 2 && now[|now| - 2].At? && now[|now| - 2].s < |rows|
  {
  }

  lemma TopValid(g: Grammar, rows: seq<seq<Action>>, stack: seq<Place>, a: nat)
    requires stack != [] && TokenMove(g, rows, stack[|stack| - 1], a).Reduce_?
    requires AfterReduce(g, rows, stack, TokenMove(g, rows, stack[|stack| - 1], a).r).Continue?
    ensures stack[|stack| - 1] in Tops(g, rows)
  {
  }

  /** Among many low times there are two with the same two places on top. */
  lemma SameTops(g: Grammar, rows: seq<seq<Action>>, stack: seq<Place>, a: nat) returns (n: nat, m: nat)
    requires Endless(g, rows, stack, a)
    ensures 0 < n < m && Low(g, rows, stack, a, n)
    ensures |After(g, rows, stack, a, n)| >= 2 && |After(g, rows, stack, a, m)| >= 2
    ensures TopTwo(After(g, rows, stack, a, n)) == TopTwo(After(g, rows, stack, a, m))
  {
    hide After, Low, Endless, Pairs;
    var times := ManyLows(g, rows, stack, a, |Pairs(g, rows)| + 1);
    forall i | 0 <= i < |times|
      ensures |After(g, rows, stack, a, times[i])| >= 2
      ensures TopTwo(After(g, rows, stack, a, times[i])) in Pairs(g, rows)
    {
      TopTwoKnown(g, rows, stack, a, times[i]);
    }
    var tops := seq(|times|, i requires 0 <= i < |times| => TopTwo(After(g, rows, stack, a, times[i])));
    if Distinct(tops) { DistinctBound(tops, Pairs(g, rows)); }
    var i, j :| 0 <= i < j < |tops| && tops[i] == tops[j];
    n, m := times[i], times[j];
  }

  lemma EndlessCircles(g: Grammar, rows: seq<seq<Action>>, stack: seq<Place>, a: nat) returns (n: nat)
    requires Endless(g, rows, stack, a)
    ensures CirclesAt(g, rows, stack, a, n)
  {
    hide TokenRun, After, Going;
    var m;
    n, m := SameTops(g, rows, stack, a);
    var now := After(g, rows, stack, a, n);
    var base, u := now[..|now| - 2], now[|now| - 2..];
    assert base + u == now && u == [now[|now| - 2], now[|now| - 1]];
    assert Going(g, rows, stack, a, n);
    forall k: nat | 0 < k <= m - n
      ensures Going(g, rows, base + u, a, k) && |After(g, rows, base + u, a, k)| >= |base| + 2
    {
      assert Going(g, rows, stack, a, n + k);
      SplitAt(g, rows, stack, a, n, k);
    }
    SplitAt(g, rows, stack, a, n, m - n);
    RunWithin(g, rows, base, u, a, m - n);
    assert ComesBack(g, rows, a, u[0], u[1], m - n);
  }

  lemma SplitAt(g: Grammar, rows: seq<seq<Action>>, stack: seq<Place>, a: nat, n: nat, k: nat)
    requires Going(g, rows, stack, a, n)
    ensures Going(g, rows, stack, a, n + k) <==> Going(g, rows, After(g, rows, stack, a, n), a, k)
    ensures After(g, rows, stack, a, n + k) == After(g, rows, After(g, rows, stack, a, n), a, k)
  {
    Split(g, rows, stack, a, n, k);
  }

  // ---------------------------------------------------------------- exactly when the loop ends

  /** After n reductions there are two places on top to which the machine comes back. */
  ghost predicate CirclesAt(g: Grammar, rows: seq<seq<Action>>, stack: seq<Place>, a: nat, n: nat) {
    var now := After(g, rows, stack, a, n);
    Going(g, rows, stack, a, n) && |now| >= 2 && Circles(g, rows, a, now[|now| - 2], now[|now| - 1])
  }

  /** On a given stack the loop ends if and only if it never gets to such a pair. */
  lemma EndsIff(g: Grammar, rows: seq<seq<Action>>, stack: seq<Place>, a: nat)
    ensures Ends(g, rows, stack, a) <==> !exists n: nat :: CirclesAt(g, rows, stack, a, n)
  {
    hide TokenRun, After, Circles;
    if !Ends(g, rows, stack, a) {
      assert Endless(g, rows, stack, a);
      var n := EndlessCircles(g, rows, stack, a);
    }
    if n: nat :| CirclesAt(g, rows, stack, a, n) { CirclesOn(g, rows, stack, a, n); }
  }

  lemma CirclesOn(g: Grammar, rows: seq<seq<Action>>, stack: seq<Place>, a: nat, n: nat)
    requires CirclesAt(g, rows, stack, a, n)
    ensures !Ends(g, rows, stack, a)
  {
    hide TokenRun, After;
    var now := After(g, rows, stack, a, n);
    var s, q := now[|now| - 2], now[|now| - 1];
    var k :| ComesBack(g, rows, a, s, q, k);
    assert now == now[..|now| - 2] + [s, q];
    forall fuel: nat
      ensures Going(g, rows, stack, a, fuel)
    {
      if fuel <= n {
        Earlier(g, rows, stack, a, n, fuel);
      } else {
        CirclesForever(g, rows, now[..|now| - 2], a, s, q, k, fuel - n);
        SplitAt(g, rows, stack, a, n, fuel - n);
      }
    }
  }

  /** So the loop ends whatever the stack if and only if the machine comes back to no pair of places:
      a property of the action rows alone. */
  lemma AlwaysEndsIff(g: Grammar, rows: seq<seq<Action>>, a: nat)
    ensures (forall stack :: Ends(g, rows, stack, a)) <==> forall s, q :: !Circles(g, rows, a, s, q)
  {
    hide TokenRun, After, Going, Circles, Ends;
    if forall s, q :: !Circles(g, rows, a, s, q) {
      forall stack
        ensures Ends(g, rows, stack, a)
      {
        EndsIff(g, rows, stack, a);
      }
    }
    if s, q :| Circles(g, rows, a, s, q) {
      NoReductions(g, rows, [s, q], a);
      assert CirclesAt(g, rows, [s, q], a, 0);
      EndsIff(g, rows, [s, q], a);
    }
  }

  lemma NoReductions(g: Grammar, rows: seq<seq<Action>>, stack: seq<Place>, a: nat)
    ensures Going(g, rows, stack, a, 0) && After(g, rows, stack, a, 0) == stack
  {
  }

  // ---------------------------------------------------------------- a parser that hangs

  /** A state with a default by a rule with an empty right-hand side. */
  ghost predicate Pushes(g: Grammar, rows: seq<seq<Action>>, s: nat, r: nat, q: nat) {
    && s < |rows| && OneLive(rows[s])
    && r < |g.rules| && g.rules[r].rhs == []
    && Action(g.NSymbol(), REDUCE, r) in rows[s] && Action(g.rules[r].lhs, SHIFT, q) in rows[s]
  }

  lemma PushesOn(g: Grammar, rows: seq<seq<Action>>, stack: seq<Place>, s: nat, r: nat, q: nat, a: nat)
    requires stack != [] && stack[|stack| - 1] == At(s) && Pushes(g, rows, s, r, q)
    requires forall b | b in rows[s] :: b.sp != a
    ensures Going(g, rows, stack, a, 1) && After(g, rows, stack, a, 1) == stack + [At(q)]
  {
    hide LiveOn, OneLive;
    LiveOnUnique(rows[s], Action(g.NSymbol(), REDUCE, r));
    LiveOnUnique(rows[s], Action(g.rules[r].lhs, SHIFT, q));
    assert LiveOn(rows[s], a) == [];
    assert stack[..|stack| - 0] == stack;
  }
  /** Two such states that lead to one another. */
  lemma PushesCircle(g: Grammar, rows: seq<seq<Action>>, s: nat, r: nat, q: nat, r': nat, a: nat)
    requires Pushes(g, rows, s, r, q) && Pushes(g, rows, q, r', s)
    requires s < |rows| && q < |rows| && forall b | b in rows[s] || b in rows[q] :: b.sp != a
    ensures Circles(g, rows, a, At(s), At(q))
  {
    hide TokenRun, Going, After, Pushes;
    PushesOn(g, rows, [At(s), At(q)], q, r', s, a);
    PushesOn(g, rows, [At(s), At(q), At(s)], s, r, q, a);
    assert [At(s), At(q)] + [At(s)] == [At(s), At(q), At(s)];
    SplitAt(g, rows, [At(s), At(q)], a, 1, 1);
    assert ComesBack(g, rows, a, At(s), At(q), 2);
  }

  lemma GoingIsUnfinished(g: Grammar, rows: seq<seq<Action>>, stack: seq<Place>, a: nat)
    requires !Ends(g, rows, stack, a)
    ensures forall fuel: nat :: TokenRun(g, rows, stack, a, fuel).0 == Unfinished
  {
    hide TokenRun;
    forall fuel: nat
      ensures TokenRun(g, rows, stack, a, fuel).0 == Unfinished
    {
      assert Going(g, rows, stack, a, fuel);
    }
  }

  /** The grammar  s ::= x B.  s ::= D f C.  x ::= e x A.  x ::= f C.  e ::= .  f ::= .
      with $ 0, A 1, B 2, C 3, D 4, s 6, x 7, e 8, f 9. */
  function Hanging(): Grammar {
    Grammar(5, seq(10, i => Symbol(-1, UNK)),
            [Rule(6, [7, 2], 0, -1, false), Rule(6, [4, 9, 3], 1, -1, false), Rule(7, [8, 7, 1], 2, -1, false),
             Rule(7, [9, 3], 3, -1, false), Rule(8, [], 4, -1, false), Rule(9, [], 5, -1, false)], 6)
  }

  /** Its compressed rows.  Of the two reductions on C in states 0 and 6 that by e's rule wins and
      becomes the default; behind e comes state 6, from there and from state 0. */
  function HangingRows(): seq<seq<Action>> {
    [[Action(4, SHIFT, 3), Action(6, ACCEPT, 0), Action(7, SHIFT, 1), Action(8, SHIFT, 6), Action(9, SHIFT, 9),
      Action(10, REDUCE, 4)],
     [Action(2, SHIFT, 2)],
     [Action(0, REDUCE, 0)],
     [Action(9, SHIFT, 4), Action(10, REDUCE, 5)],
     [Action(3, SHIFT, 5)],
     [Action(0, REDUCE, 1)],
     [Action(7, SHIFT, 7), Action(8, SHIFT, 6), Action(9, SHIFT, 9), Action(10, REDUCE, 4)],
     [Action(1, SHIFTREDUCE, 2)],
     [Action(10, REDUCE, 2)],
     [Action(3, SHIFTREDUCE, 3)],
     [Action(10, REDUCE, 3)]]
  }

  lemma HangingPushes(s: nat)
    requires s == 0 || s == 6
    ensures Pushes(Hanging(), HangingRows(), s, 4, 6)
    ensures forall a | a in HangingRows()[s] :: a.sp >= 4 && (s == 6 ==> a.sp > 4)
  {
    var row := HangingRows()[s];
    assert row[if s == 0 then 5 else 3] == Action(10, REDUCE, 4) && row[if s == 0 then 3 else 1] == Action(8, SHIFT, 6);
  }

  /** On every token but D the parser made for this grammar hangs at once, also on C, with which an
      input can begin; and in state 6 on every token. */
  lemma Hangs(a: nat)
    requires a < 5
    ensures Circles(Hanging(), HangingRows(), a, At(6), At(6))
    ensures a != 4 ==> forall fuel: nat :: TokenRun(Hanging(), HangingRows(), [At(0)], a, fuel).0 == Unfinished
  {
    hide TokenRun, HangingRows, Going, After, Pushes, Circles;
    HangingPushes(0);
    HangingPushes(6);
    HangingSize();
    PushesCircle(Hanging(), HangingRows(), 6, 4, 6, 4, a);
    if a != 4 {
      PushesOn(Hanging(), HangingRows(), [At(0)], 0, 4, 6, a);
      PushesOn(Hanging(), HangingRows(), [At(0), At(6)], 6, 4, 6, a);
      assert [At(0)] + [At(6)] == [At(0), At(6)];
      SplitAt(Hanging(), HangingRows(), [At(0)], a, 1, 1);
      assert CirclesAt(Hanging(), HangingRows(), [At(0)], a, 2);
      EndsIff(Hanging(), HangingRows(), [At(0)], a);
      GoingIsUnfinished(Hanging(), HangingRows(), [At(0)], a);
    }
  }

  lemma HangingSize()
    ensures |HangingRows()| == 11
  {
  }

  /** A grammar without conflicts, in which z derives no token string, so that p and q derive none
      either:  s ::= K p.  s ::= K x a L.  s ::= K x b O.  s ::= N q.  s ::= N y c P.  s ::= N y d Q.
      p ::= c z.  p ::= d z.  p ::= x q.  q ::= a z.  q ::= b z.  q ::= y p.
      a ::= y x.  b ::= y x.  c ::= x y.  d ::= x y.  x ::= .  y ::= .  z ::= z z.
      with $ 0, K 1, N 2, L 3, O 4, P 5, Q 6, another token 7, error 8, s 9, p 10, q 11, a 12 to d 15,
      x 16, y 17, z 18. */
  function Unproductive(): Grammar {
    Grammar(8, seq(19, i => Symbol(-1, UNK)),
            [Rule(9, [1, 10], 0, -1, false), Rule(9, [1, 16, 12, 3], 1, -1, false),
             Rule(9, [1, 16, 13, 4], 2, -1, false), Rule(9, [2, 11], 3, -1, false),
             Rule(9, [2, 17, 14, 5], 4, -1, false), Rule(9, [2, 17, 15, 6], 5, -1, false),
             Rule(10, [14, 18], 6, -1, false), Rule(10, [15, 18], 7, -1, false), Rule(10, [16, 11], 8, -1, false),
             Rule(11, [12, 18], 9, -1, false), Rule(11, [13, 18], 10, -1, false), Rule(11, [17, 10], 11, -1, false),
             Rule(12, [17, 16], 12, -1, false), Rule(13, [17, 16], 13, -1, false),
             Rule(14, [16, 17], 14, -1, false), Rule(15, [16, 17], 15, -1, false),
             Rule(16, [], 16, -1, false), Rule(17, [], 17, -1, false), Rule(18, [18, 18], 18, -1, false)], 9)
  }

  /** Its compressed rows.  In state 12 the rule of x is reduced on L and O and thus the default, in
      state 17 that of y on P and Q; they lead to one another. */
  function UnproductiveRows(): seq<seq<Action>> {
    [[Action(1, SHIFT, 1), Action(2, SHIFT, 21), Action(9, ACCEPT, 0)],
     [Action(10, SHIFT, 2), Action(14, SHIFT, 13), Action(15, SHIFT, 15), Action(16, SHIFT, 3),
      Action(19, REDUCE, 16)],
     [Action(0, REDUCE, 0)],
     [Action(11, SHIFTREDUCE, 8), Action(12, SHIFT, 4), Action(13, SHIFT, 8), Action(17, SHIFT, 12),
      Action(19, REDUCE, 17)],
     [Action(3, SHIFT, 5), Action(18, SHIFT, 6)],
     [Action(0, REDUCE, 1)],
     [Action(18, SHIFT, 7), Action(19, REDUCE, 9)],
     [Action(18, SHIFT, 7), Action(19, REDUCE, 18)],
     [Action(4, SHIFT, 9), Action(18, SHIFT, 10)],
     [Action(0, REDUCE, 2)],
     [Action(18, SHIFT, 7), Action(19, REDUCE, 10)],
     [Action(19, REDUCE, 8)],
     [Action(5, REDUCE, 14), Action(6, REDUCE, 15), Action(10, SHIFTREDUCE, 11), Action(14, SHIFT, 13),
      Action(15, SHIFT, 15), Action(16, SHIFT, 17), Action(19, REDUCE, 16)],
     [Action(18, SHIFT, 14)],
     [Action(18, SHIFT, 7), Action(19, REDUCE, 6)],
     [Action(18, SHIFT, 16)],
     [Action(18, SHIFT, 7), Action(19, REDUCE, 7)],
     [Action(3, REDUCE, 12), Action(4, REDUCE, 13), Action(11, SHIFTREDUCE, 8), Action(12, SHIFT, 18),
      Action(13, SHIFT, 19), Action(17, SHIFT, 12), Action(19, REDUCE, 17)],
     [Action(18, SHIFT, 6)],
     [Action(18, SHIFT, 10)],
     [Action(19, REDUCE, 11)],
     [Action(11, SHIFT, 22), Action(12, SHIFT, 18), Action(13, SHIFT, 19), Action(17, SHIFT, 23),
      Action(19, REDUCE, 17)],
     [Action(0, REDUCE, 3)],
     [Action(10, SHIFTREDUCE, 11), Action(14, SHIFT, 24), Action(15, SHIFT, 26), Action(16, SHIFT, 17),
      Action(19, REDUCE, 16)],
     [Action(5, SHIFT, 25), Action(18, SHIFT, 14)],
     [Action(0, REDUCE, 4)],
     [Action(6, SHIFT, 27), Action(18, SHIFT, 16)],
     [Action(0, REDUCE, 5)]]
  }

  lemma UnproductivePushes(s: nat)
    requires s in {1, 3, 12, 17}
    ensures var r := if s == 1 || s == 12 then 16 else 17;
            var q := if s == 1 then 3 else if s == 12 then 17 else 12;
            Pushes(Unproductive(), UnproductiveRows(), s, r, q)
    ensures forall a | a in UnproductiveRows()[s] :: a.sp != 7
  {
    var row := UnproductiveRows()[s];
    var last := if s == 12 || s == 17 then 6 else 4;
    assert row[last].typ == REDUCE && row[last - 1].typ == SHIFT;
  }

  /** With K shifted, the parser for it hangs on token 7, which is an error. */
  lemma HangsOnError()
    ensures Circles(Unproductive(), UnproductiveRows(), 7, At(12), At(17))
    ensures forall fuel: nat ::
              TokenRun(Unproductive(), UnproductiveRows(), [At(0), At(1)], 7, fuel).0 == Unfinished
  {
    hide TokenRun, UnproductiveRows, Unproductive, Going, After, Pushes, Circles;
    UnproductivePushes(1);
    UnproductivePushes(3);
    UnproductivePushes(12);
    UnproductivePushes(17);
    UnproductiveSize();
    var g, rows, stack := Unproductive(), UnproductiveRows(), [At(0), At(1)];
    PushesCircle(g, rows, 12, 16, 17, 17, 7);
    PushesOn(g, rows, stack, 1, 16, 3, 7);
    PushesOn(g, rows, stack + [At(3)], 3, 17, 12, 7);
    PushesOn(g, rows, stack + [At(3)] + [At(12)], 12, 16, 17, 7);
    SplitAt(g, rows, stack, 7, 1, 1);
    SplitAt(g, rows, stack, 7, 2, 1);
    assert CirclesAt(g, rows, stack, 7, 3);
    EndsIff(g, rows, stack, 7);
    GoingIsUnfinished(g, rows, stack, 7);
  }

  lemma UnproductiveSize()
    ensures |UnproductiveRows()| == 28
  {
  }
}
