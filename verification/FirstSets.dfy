/** `FindFirstSets`: the nonterminals that derive the empty string, and the terminals that can
    begin a sentential form derived from each nonterminal. */
module FirstSets {
  import opened Grammars

  // ---------------------------------------------------------------- specification

  ghost predicate Nullable(g: Grammar, x: nat) {
    Derives(g, x, [])
  }

  /** Some sentential form derived from x begins with a. */
  ghost predicate First(g: Grammar, x: nat, a: nat) {
    exists w :: Derives(g, x, w) && w != [] && w[0] == a
  }

  ghost predicate ForestOf(g: Grammar, ts: seq<Tree>, beta: seq<nat>) {
    ValidForest(g, ts) && Roots(g, ts) == beta
  }

  ghost predicate NullableSeq(g: Grammar, beta: seq<nat>) {
    exists ts :: ForestOf(g, ts, beta) && YieldAll(ts) == []
  }

  ghost predicate FirstSeq(g: Grammar, beta: seq<nat>, a: nat) {
    exists ts :: ForestOf(g, ts, beta) && YieldAll(ts) != [] && YieldAll(ts)[0] == a
  }

  // ---------------------------------------------------------------- strings of symbols

  lemma NullableSeqIff(g: Grammar, beta: seq<nat>)
    ensures NullableSeq(g, beta) <==> forall i | 0 <= i < |beta| :: Nullable(g, beta[i])
  {
    hide NullableSeq, Nullable;
    if NullableSeq(g, beta) { EachNullable(g, beta); }
    if forall i | 0 <= i < |beta| :: Nullable(g, beta[i]) { AllNullable(g, beta); }
  }

  lemma {:induction false} EachNullable(g: Grammar, beta: seq<nat>)
    requires NullableSeq(g, beta)
    ensures forall i | 0 <= i < |beta| :: Nullable(g, beta[i])
  {
    if beta != [] {
      var ts :| ForestOf(g, ts, beta) && YieldAll(ts) == [];
      ForestTail(g, ts, beta);
      assert Yield(ts[0]) == [] && YieldAll(ts[1..]) == [];
      assert Derives(g, beta[0], []);
      EachNullable(g, beta[1..]);
      assert forall i | 0 < i < |beta| :: beta[i] == beta[1..][i - 1];
    }
  }

  lemma {:induction false} AllNullable(g: Grammar, beta: seq<nat>)
    requires forall i | 0 <= i < |beta| :: Nullable(g, beta[i])
    ensures NullableSeq(g, beta)
  {
    if beta == [] {
      assert ForestOf(g, [], []);
      assert YieldAll([]) == [];
    } else {
      assert forall i | 0 <= i < |beta[1..]| :: beta[1..][i] == beta[i + 1];
      AllNullable(g, beta[1..]);
      var ts :| ForestOf(g, ts, beta[1..]) && YieldAll(ts) == [];
      assert Nullable(g, beta[0]);
      var t :| ValidTree(g, t) && Root(g, t) == beta[0] && Yield(t) == [];
      ConsForest(g, t, ts);
      assert ForestOf(g, [t] + ts, beta);
    }
  }

  lemma ForestTail(g: Grammar, ts: seq<Tree>, beta: seq<nat>)
    requires ForestOf(g, ts, beta) && beta != []
    ensures |ts| == |beta| && ValidTree(g, ts[0]) && Root(g, ts[0]) == beta[0]
    ensures ForestOf(g, ts[1..], beta[1..])
  {
    assert |Roots(g, ts)| == |ts|;
    ConsForest(g, ts[0], ts[1..]);
    assert [ts[0]] + ts[1..] == ts;
  }

  /** A string begins with a when the symbols before some position vanish and a symbol there
      can begin with a. */
  lemma FirstSeqFrom(g: Grammar, beta: seq<nat>, i: nat, a: nat)
    requires i < |beta| && (forall k | 0 <= k < |beta| :: beta[k] < g.NSymbol())
    requires NullableSeq(g, beta[..i]) && First(g, beta[i], a)
    ensures FirstSeq(g, beta, a)
  {
    var ts :| ForestOf(g, ts, beta[..i]) && YieldAll(ts) == [];
    var w :| Derives(g, beta[i], w) && w != [] && w[0] == a;
    var t :| ValidTree(g, t) && Root(g, t) == beta[i] && Yield(t) == w;
    TreesFrom(g, beta, i, ts, t);
  }

  lemma TreesFrom(g: Grammar, beta: seq<nat>, i: nat, ts: seq<Tree>, t: Tree)
    requires i < |beta| && (forall k | 0 <= k < |beta| :: beta[k] < g.NSymbol())
    requires ForestOf(g, ts, beta[..i]) && YieldAll(ts) == []
    requires ValidTree(g, t) && Root(g, t) == beta[i] && Yield(t) != []
    ensures FirstSeq(g, beta, Yield(t)[0])
  {
    hide ForestOf, ValidTree, Yield, YieldAll, Leaves, Root;
    var rest := TreeAndRest(g, t, beta[i], beta[i + 1..]);
    ForestConcat(g, ts, beta[..i], rest, [beta[i]] + beta[i + 1..]);
    assert beta[..i] + ([beta[i]] + beta[i + 1..]) == beta;
    assert YieldAll(ts + rest) == Yield(t) + beta[i + 1..];
  }

  lemma TreeAndRest(g: Grammar, t: Tree, x: nat, tail: seq<nat>) returns (ts: seq<Tree>)
    requires ValidTree(g, t) && Root(g, t) == x && forall k | 0 <= k < |tail| :: tail[k] < g.NSymbol()
    ensures ForestOf(g, ts, [x] + tail) && YieldAll(ts) == Yield(t) + tail
  {
    var rest := Leaves(tail);
    LeavesYield(g, tail);
    assert ForestOf(g, rest, tail);
    ConsForest(g, t, rest);
    ts := [t] + rest;
  }

  lemma ForestConcat(g: Grammar, ts: seq<Tree>, beta: seq<nat>, us: seq<Tree>, gamma: seq<nat>)
    requires ForestOf(g, ts, beta) && ForestOf(g, us, gamma)
    ensures ForestOf(g, ts + us, beta + gamma)
    ensures YieldAll(ts + us) == YieldAll(ts) + YieldAll(us)
  {
    YieldAllConcat(ts, us);
    assert |Roots(g, ts)| == |ts| && |Roots(g, us)| == |us|;
    assert Roots(g, ts + us) == Roots(g, ts) + Roots(g, us);
  }

  /** Where a nonempty yield begins: the first tree with a nonempty yield. */
  lemma {:induction false} FirstOfForest(g: Grammar, ts: seq<Tree>) returns (i: nat)
    requires YieldAll(ts) != []
    ensures i < |ts| && Yield(ts[i]) != [] && Yield(ts[i])[0] == YieldAll(ts)[0]
    ensures forall k | 0 <= k < i :: Yield(ts[k]) == []
  {
    if Yield(ts[0]) != [] {
      i := 0;
    } else {
      var j := FirstOfForest(g, ts[1..]);
      i := j + 1;
      forall k | 0 <= k < i
        ensures Yield(ts[k]) == []
      {
        assert k > 0 ==> ts[k] == ts[1..][k - 1];
      }
    }
  }

  lemma FirstSeqIff(g: Grammar, beta: seq<nat>, a: nat)
    requires forall k | 0 <= k < |beta| :: beta[k] < g.NSymbol()
    ensures FirstSeq(g, beta, a) <==>
            exists i | 0 <= i < |beta| :: NullableSeq(g, beta[..i]) && First(g, beta[i], a)
  {
    if FirstSeq(g, beta, a) {
      var ts :| ForestOf(g, ts, beta) && YieldAll(ts) != [] && YieldAll(ts)[0] == a;
      assert |Roots(g, ts)| == |ts|;
      var i := FirstOfForest(g, ts);
      assert Root(g, ts[i]) == beta[i];
      assert Derives(g, beta[i], Yield(ts[i]));
      forall k | 0 <= k < |beta[..i]|
        ensures Nullable(g, beta[..i][k])
      {
        assert Root(g, ts[k]) == beta[k];
        assert Derives(g, beta[k], []);
      }
      NullableSeqIff(g, beta[..i]);
    }
    if i: nat :| i < |beta| && NullableSeq(g, beta[..i]) && First(g, beta[i], a) {
      FirstSeqFrom(g, beta, i, a);
    }
  }

  lemma NullableByRule(g: Grammar, r: nat)
    requires r < |g.rules| && NullableSeq(g, g.rules[r].rhs)
    ensures Nullable(g, g.rules[r].lhs)
  {
    var ts :| ForestOf(g, ts, g.rules[r].rhs) && YieldAll(ts) == [];
    var t := Node(r, ts);
    assert ValidTree(g, t) && Yield(t) == [];
  }

  lemma FirstByRule(g: Grammar, r: nat, a: nat)
    requires r < |g.rules| && FirstSeq(g, g.rules[r].rhs, a)
    ensures First(g, g.rules[r].lhs, a)
  {
    var ts :| ForestOf(g, ts, g.rules[r].rhs) && YieldAll(ts) != [] && YieldAll(ts)[0] == a;
    var t := Node(r, ts);
    assert ValidTree(g, t) && Yield(t) == YieldAll(ts);
    assert Derives(g, g.rules[r].lhs, Yield(t));
  }

  lemma FirstOfTerminal(g: Grammar, a: nat)
    requires a < g.NSymbol()
    ensures First(g, a, a)
  {
    assert Yield(Leaf(a)) == [a];
    assert Derives(g, a, [a]);
  }

  // ---------------------------------------------------------------- the two fixpoints

  ghost predicate LambdaSound(g: Grammar, lambda: seq<bool>) {
    && |lambda| == g.NSymbol()
    && forall x | 0 <= x < |lambda| && lambda[x] :: g.Nonterminal(x) && Nullable(g, x)
  }

  ghost predicate AllLambda(lambda: seq<bool>, beta: seq<nat>) {
    forall i | 0 <= i < |beta| :: beta[i] < |lambda| && lambda[beta[i]]
  }

  ghost predicate LambdaClosed(g: Grammar, lambda: seq<bool>, r: nat)
    requires r < |g.rules|
  {
    AllLambda(lambda, g.rules[r].rhs) ==> g.rules[r].lhs < |lambda| && lambda[g.rules[r].lhs]
  }

  lemma {:induction false} LambdaComplete(g: Grammar, lambda: seq<bool>, t: Tree)
    requires forall r | 0 <= r < |g.rules| :: LambdaClosed(g, lambda, r)
    requires ValidTree(g, t) && Yield(t) == []
    ensures Root(g, t) < |lambda| && lambda[Root(g, t)]
  {
    match t
    case Node(r, kids) =>
      EmptyYields(kids);
      assert |Roots(g, kids)| == |kids|;
      forall i | 0 <= i < |kids|
        ensures g.rules[r].rhs[i] < |lambda| && lambda[g.rules[r].rhs[i]]
      {
        LambdaComplete(g, lambda, kids[i]);
        assert Roots(g, kids)[i] == Root(g, kids[i]);
      }
      assert LambdaClosed(g, lambda, r);
  }

  lemma {:induction false} EmptyYields(ts: seq<Tree>)
    requires YieldAll(ts) == []
    ensures forall i | 0 <= i < |ts| :: Yield(ts[i]) == []
  {
    if ts != [] {
      EmptyYields(ts[1..]);
      forall i | 0 <= i < |ts|
        ensures Yield(ts[i]) == []
      {
        assert i > 0 ==> ts[i] == ts[1..][i - 1];
      }
    }
  }

  ghost predicate LambdaExact(g: Grammar, lambda: seq<bool>) {
    && |lambda| == g.NSymbol()
    && forall x | 0 <= x < |lambda| :: lambda[x] <==> Nullable(g, x)
  }

  lemma LambdaFixpoint(g: Grammar, lambda: seq<bool>)
    requires LambdaSound(g, lambda)
    requires forall r | 0 <= r < |g.rules| :: LambdaClosed(g, lambda, r)
    ensures LambdaExact(g, lambda)
  {
    forall x | 0 <= x < |lambda| && Nullable(g, x)
      ensures lambda[x]
    {
      var t :| ValidTree(g, t) && Root(g, t) == x && Yield(t) == [];
      LambdaComplete(g, lambda, t);
    }
  }

  lemma AllLambdaIsNullable(g: Grammar, lambda: seq<bool>, beta: seq<nat>)
    requires LambdaExact(g, lambda) && forall k | 0 <= k < |beta| :: beta[k] < g.NSymbol()
    ensures AllLambda(lambda, beta) <==> NullableSeq(g, beta)
  {
    NullableSeqIff(g, beta);
  }

  ghost predicate FirstSound(g: Grammar, first: seq<set<nat>>) {
    && |first| == g.NSymbol()
    && forall x, a | 0 <= x < |first| && a in first[x] :: a < g.nterminal && First(g, x, a)
  }

  /** What symbol x contributes to the set of a rule that begins with it. */
  ghost function Begins(g: Grammar, first: seq<set<nat>>, x: nat): set<nat> {
    if x < g.nterminal then {x} else if x < |first| then first[x] else {}
  }

  ghost predicate FirstClosedAt(g: Grammar, lambda: seq<bool>, first: seq<set<nat>>, r: nat, i: nat)
    requires r < |g.rules| && i < |g.rules[r].rhs|
  {
    var rule := g.rules[r];
    AllLambda(lambda, rule.rhs[..i]) ==> rule.lhs < |first| && Begins(g, first, rule.rhs[i]) <= first[rule.lhs]
  }

  ghost predicate FirstClosed(g: Grammar, lambda: seq<bool>, first: seq<set<nat>>, r: nat)
    requires r < |g.rules|
  {
    forall i | 0 <= i < |g.rules[r].rhs| :: FirstClosedAt(g, lambda, first, r, i)
  }

  lemma {:induction false} FirstComplete(g: Grammar, lambda: seq<bool>, first: seq<set<nat>>, t: Tree)
    requires g.Valid() && LambdaExact(g, lambda)
    requires forall r | 0 <= r < |g.rules| :: FirstClosed(g, lambda, first, r)
    requires ValidTree(g, t) && t.Node? && Yield(t) != [] && Yield(t)[0] < g.nterminal
    ensures Root(g, t) < |first| && Yield(t)[0] in first[Root(g, t)]
  {
    var r, kids := t.rule, t.kids;
    var rule := g.rules[r];
    assert |Roots(g, kids)| == |kids|;
    var i := FirstOfForest(g, kids);
    assert Roots(g, kids)[i] == Root(g, kids[i]) == rule.rhs[i];
    forall k | 0 <= k < |rule.rhs[..i]|
      ensures Nullable(g, rule.rhs[..i][k])
    {
      assert Roots(g, kids)[k] == Root(g, kids[k]) == rule.rhs[k];
      assert Derives(g, rule.rhs[k], []);
    }
    assert AllLambda(lambda, rule.rhs[..i]) by {
      assert g.ValidRule(rule);
    }
    assert FirstClosed(g, lambda, first, r) && FirstClosedAt(g, lambda, first, r, i);
    if kids[i].Node? {
      FirstComplete(g, lambda, first, kids[i]);
      assert g.ValidRule(g.rules[kids[i].rule]);
    }
  }

  ghost predicate FirstExact(g: Grammar, first: seq<set<nat>>) {
    && |first| == g.NSymbol()
    && forall x | g.nterminal <= x < |first| :: IsFirstSet(g, x, first[x])
  }

  ghost predicate IsFirstSet(g: Grammar, x: nat, s: set<nat>) {
    forall a: nat :: a in s <==> a < g.nterminal && First(g, x, a)
  }

  lemma FirstFixpoint(g: Grammar, lambda: seq<bool>, first: seq<set<nat>>)
    requires g.Valid() && LambdaExact(g, lambda) && FirstSound(g, first)
    requires forall r | 0 <= r < |g.rules| :: FirstClosed(g, lambda, first, r)
    ensures FirstExact(g, first)
  {
    forall x, a: nat | g.nterminal <= x < |first| && a < g.nterminal && First(g, x, a)
      ensures a in first[x]
    {
      var w :| Derives(g, x, w) && w != [] && w[0] == a;
      var t :| ValidTree(g, t) && Root(g, t) == x && Yield(t) == w;
      FirstComplete(g, lambda, first, t);
    }
  }

  /** With exact tables, a string's first set is what the scan over its symbols collects. */
  lemma FirstSeqByTables(g: Grammar, lambda: seq<bool>, first: seq<set<nat>>, beta: seq<nat>, a: nat)
    requires g.Valid() && LambdaExact(g, lambda) && FirstExact(g, first) && a < g.nterminal
    requires forall k | 0 <= k < |beta| :: beta[k] < g.NSymbol()
    ensures FirstSeq(g, beta, a) <==>
            exists i | 0 <= i < |beta| :: AllLambda(lambda, beta[..i]) && a in Begins(g, first, beta[i])
  {
    FirstSeqIff(g, beta, a);
    forall i | 0 <= i < |beta|
      ensures AllLambda(lambda, beta[..i]) <==> NullableSeq(g, beta[..i])
      ensures a in Begins(g, first, beta[i]) <==> First(g, beta[i], a)
    {
      AllLambdaIsNullable(g, lambda, beta[..i]);
      FirstOfSymbol(g, first, beta[i], a);
    }
  }

  lemma FirstOfSymbol(g: Grammar, first: seq<set<nat>>, x: nat, a: nat)
    requires g.Valid() && FirstExact(g, first) && x < g.NSymbol() && a < g.nterminal
    ensures a in Begins(g, first, x) <==> First(g, x, a)
  {
    if x < g.nterminal {
      FirstOfTerminal(g, x);
      if First(g, x, a) {
        var w :| Derives(g, x, w) && w != [] && w[0] == a;
        var t :| ValidTree(g, t) && Root(g, t) == x && Yield(t) == w;
        assert t.Leaf?;
      }
    } else {
      assert IsFirstSet(g, x, first[x]);
    }
  }

  // ---------------------------------------------------------------- the algorithm

  ghost function Unset(lambda: seq<bool>): set<nat> {
    set x: nat | x < |lambda| && !lambda[x]
  }

  ghost function Missing(g: Grammar, first: seq<set<nat>>): set<(nat, nat)> {
    set x: nat, a: nat | x < |first| && a < g.nterminal && a !in first[x] :: (x, a)
  }

  /** `lambda` and `firstset` are the fields of the symbols. */
  method FindFirstSets(g: Grammar, lambda: array<bool>, firstset: array<set<nat>>)
    requires g.Valid() && lambda.Length == firstset.Length == g.NSymbol()
    modifies lambda, firstset
    ensures LambdaExact(g, lambda[..])
    ensures FirstExact(g, firstset[..])
  {
    for i := 0 to g.NSymbol()
      invariant forall x | 0 <= x < i :: !lambda[x]
    {
      lambda[i] := false;
    }
    for i := 0 to g.NSymbol()
      invariant forall x | 0 <= x < i :: firstset[x] == {}
      invariant forall x | 0 <= x < g.NSymbol() :: !lambda[x]
    {
      firstset[i] := {};
    }
    ComputeLambdas(g, lambda);
    ComputeFirsts(g, lambda, firstset);
  }

  method ComputeLambdas(g: Grammar, lambda: array<bool>)
    requires g.Valid() && lambda.Length == g.NSymbol()
    requires LambdaSound(g, lambda[..])
    modifies lambda
    ensures LambdaExact(g, lambda[..])
  {
    var progress := true;
    while progress
      invariant LambdaSound(g, lambda[..])
      invariant !progress ==> forall r | 0 <= r < |g.rules| :: LambdaClosed(g, lambda[..], r)
      decreases Unset(lambda[..]), progress
    {
      progress := false;
      ghost var before := lambda[..];
      for r := 0 to |g.rules|
        invariant LambdaSound(g, lambda[..])
        invariant progress ==> Unset(lambda[..]) < Unset(before)
        invariant !progress ==> lambda[..] == before && forall q | 0 <= q < r :: LambdaClosed(g, lambda[..], q)
      {
        var rule := g.rules[r];
        assert g.ValidRule(rule);
        if lambda[rule.lhs] { continue; }
        var i := 0;
        while i < |rule.rhs|
          invariant 0 <= i <= |rule.rhs|
          invariant AllLambda(lambda[..], rule.rhs[..i])
        {
          if !lambda[rule.rhs[i]] { break; }
          i := i + 1;
        }
        if i == |rule.rhs| {
          assert rule.rhs[..i] == rule.rhs;
          NullableSeqIff(g, rule.rhs);
          NullableByRule(g, r);
          ghost var old_ := lambda[..];
          lambda[rule.lhs] := true;
          progress := true;
          assert rule.lhs in Unset(old_);
          assert Unset(lambda[..]) == Unset(old_) - {rule.lhs};
        }
      }
    }
    LambdaFixpoint(g, lambda[..]);
  }

  method ComputeFirsts(g: Grammar, lambda: array<bool>, firstset: array<set<nat>>)
    requires g.Valid() && lambda.Length == firstset.Length == g.NSymbol()
    requires LambdaExact(g, lambda[..])
    requires FirstSound(g, firstset[..])
    modifies firstset
    ensures lambda[..] == old(lambda[..])
    ensures FirstExact(g, firstset[..])
  {
    var progress := true;
    while progress
      invariant FirstSound(g, firstset[..])
      invariant !progress ==> forall r | 0 <= r < |g.rules| :: FirstClosed(g, lambda[..], firstset[..], r)
      decreases Missing(g, firstset[..]), progress
    {
      progress := false;
      ghost var before := firstset[..];
      for r := 0 to |g.rules|
        invariant FirstSound(g, firstset[..])
        invariant progress ==> Missing(g, firstset[..]) < Missing(g, before)
        invariant !progress ==> firstset[..] == before
        invariant !progress ==> forall q | 0 <= q < r :: FirstClosed(g, lambda[..], before, q)
      {
        var changed := AddFirsts(g, lambda, firstset, r);
        progress := progress || changed;
      }
    }
    FirstFixpoint(g, lambda[..], firstset[..]);
  }

  /** The inner loop for one rule: scan its right-hand side up to the first symbol that does not
      vanish, adding what each scanned symbol can begin with. */
  method AddFirsts(g: Grammar, lambda: array<bool>, firstset: array<set<nat>>, r: nat) returns (progress: bool)
    requires g.Valid() && lambda.Length == firstset.Length == g.NSymbol()
    requires r < |g.rules|
    requires LambdaExact(g, lambda[..]) && FirstSound(g, firstset[..])
    modifies firstset
    ensures FirstSound(g, firstset[..])
    ensures progress ==> Missing(g, firstset[..]) < old(Missing(g, firstset[..]))
    ensures !progress ==> firstset[..] == old(firstset[..]) && FirstClosed(g, lambda[..], firstset[..], r)
  {
    hide *;
    progress := false;
    var rule := g.rules[r];
    ScanStart(g, lambda[..], r);
    var i := 0;
    while i < |rule.rhs|
      invariant 0 <= i <= |rule.rhs|
      invariant FirstSound(g, firstset[..])
      invariant AllLambda(lambda[..], rule.rhs[..i])
      invariant progress ==> Missing(g, firstset[..]) < old(Missing(g, firstset[..]))
      invariant !progress ==> firstset[..] == old(firstset[..])
      invariant !progress ==> forall k | 0 <= k < i :: FirstClosedAt(g, lambda[..], firstset[..], r, k)
    {
      var s1, s2 := rule.lhs, rule.rhs[i];
      ghost var was := firstset[..];
      var add := if s2 < g.nterminal then {s2} else if s1 == s2 then {} else firstset[s2];
      ScanStep(g, lambda[..], was, r, i, add);
      var change := !(add <= firstset[s1]);
      firstset[s1] := firstset[s1] + add;
      assert firstset[..] == was[s1 := was[s1] + add];
      progress := progress || change;
      ScanOn(g, lambda[..], r, i);
      if s2 < g.nterminal || !lambda[s2] {
        NothingBehind(g, lambda[..], firstset[..], r, i);
        ScanDone(g, lambda[..], firstset[..], r);
        return;
      }
      i := i + 1;
    }
    ScanDone(g, lambda[..], firstset[..], r);
  }

  lemma ScanStart(g: Grammar, lambda: seq<bool>, r: nat)
    requires g.Valid() && r < |g.rules|
    ensures g.rules[r].lhs < g.NSymbol() && forall k | 0 <= k < |g.rules[r].rhs| :: g.rules[r].rhs[k] < g.NSymbol()
    ensures AllLambda(lambda, g.rules[r].rhs[..0])
  {
    assert g.ValidRule(g.rules[r]);
  }

  /** What one symbol of the rule adds. */
  lemma ScanStep(g: Grammar, lambda: seq<bool>, was: seq<set<nat>>, r: nat, i: nat, add: set<nat>)
    requires g.Valid() && LambdaExact(g, lambda) && FirstSound(g, was)
    requires r < |g.rules| && i < |g.rules[r].rhs| && AllLambda(lambda, g.rules[r].rhs[..i])
    requires var x, y := g.rules[r].lhs, g.rules[r].rhs[i];
             add == if y < g.nterminal then {y} else if x == y || y >= |was| then {} else was[y]
    ensures g.rules[r].lhs < |was|
    ensures var x := g.rules[r].lhs;
            var now := was[x := was[x] + add];
            && FirstSound(g, now) && Missing(g, now) <= Missing(g, was)
            && (!(add <= was[x]) ==> Missing(g, now) < Missing(g, was))
            && (add <= was[x] ==> now == was && FirstClosedAt(g, lambda, was, r, i))
  {
    assert g.ValidRule(g.rules[r]);
    AddedAreFirst(g, lambda, was, r, i);
    MissingShrinks(g, was, g.rules[r].lhs, add);
    hide Missing, LambdaExact, First, AllLambda;
    var x := g.rules[r].lhs;
    assert add <= was[x] ==> was[x] + add == was[x];
  }

  /** Whether the scan goes on behind a symbol. */
  lemma ScanOn(g: Grammar, lambda: seq<bool>, r: nat, i: nat)
    requires g.Valid() && LambdaExact(g, lambda)
    requires r < |g.rules| && i < |g.rules[r].rhs| && AllLambda(lambda, g.rules[r].rhs[..i])
    ensures var y := g.rules[r].rhs[i];
            AllLambda(lambda, g.rules[r].rhs[..i + 1]) <==> y >= g.nterminal && y < |lambda| && lambda[y]
  {
    var rhs := g.rules[r].rhs;
    assert rhs[..i + 1] == rhs[..i] + [rhs[i]] && rhs[..i + 1][i] == rhs[i];
    if rhs[i] < |lambda| { TerminalNotNullable(g, lambda, rhs[i]); }
  }

  lemma ScanDone(g: Grammar, lambda: seq<bool>, first: seq<set<nat>>, r: nat)
    requires r < |g.rules|
    ensures (forall k | 0 <= k < |g.rules[r].rhs| :: FirstClosedAt(g, lambda, first, r, k)) ==>
            FirstClosed(g, lambda, first, r)
  {
  }

  lemma TerminalNotNullable(g: Grammar, lambda: seq<bool>, x: nat)
    requires LambdaExact(g, lambda) && g.Valid() && x < |lambda|
    ensures x < g.nterminal ==> !lambda[x]
  {
  }

  lemma AddedAreFirst(g: Grammar, lambda: seq<bool>, first: seq<set<nat>>, r: nat, i: nat)
    requires g.Valid() && LambdaExact(g, lambda) && FirstSound(g, first)
    requires r < |g.rules| && i < |g.rules[r].rhs| && AllLambda(lambda, g.rules[r].rhs[..i])
    ensures forall a | a in Begins(g, first, g.rules[r].rhs[i]) :: a < g.nterminal && First(g, g.rules[r].lhs, a)
  {
    var rhs := g.rules[r].rhs;
    assert g.ValidRule(g.rules[r]);
    AllLambdaIsNullable(g, lambda, rhs[..i]);
    forall a | a in Begins(g, first, rhs[i])
      ensures a < g.nterminal && First(g, g.rules[r].lhs, a)
    {
      if rhs[i] < g.nterminal { FirstOfTerminal(g, a); }
      FirstSeqFrom(g, rhs, i, a);
      FirstByRule(g, r, a);
    }
  }

  lemma MissingShrinks(g: Grammar, first: seq<set<nat>>, x: nat, add: set<nat>)
    requires x < |first| && forall a | a in add :: a < g.nterminal
    ensures var after := first[x := first[x] + add];
            Missing(g, after) <= Missing(g, first) &&
            (!(add <= first[x]) ==> Missing(g, after) < Missing(g, first))
  {
    var after := first[x := first[x] + add];
    if !(add <= first[x]) {
      var a :| a in add && a !in first[x];
      assert (x, a) in Missing(g, first) && (x, a) !in Missing(g, after);
    }
  }

  lemma NothingBehind(g: Grammar, lambda: seq<bool>, first: seq<set<nat>>, r: nat, i: nat)
    requires r < |g.rules| && i < |g.rules[r].rhs| && !AllLambda(lambda, g.rules[r].rhs[..i + 1])
    ensures forall k | i < k < |g.rules[r].rhs| :: FirstClosedAt(g, lambda, first, r, k)
  {
    var rhs := g.rules[r].rhs;
    forall k | i < k < |rhs|
      ensures !AllLambda(lambda, rhs[..k])
    {
      var j :| 0 <= j < i + 1 && !(rhs[j] < |lambda| && lambda[rhs[j]]);
      assert rhs[..k][j] == rhs[j];
    }
  }
}
