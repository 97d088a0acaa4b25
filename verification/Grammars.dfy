/** Grammars as lemon sees them after symbols and rules have been numbered, and the
    derivations they allow.

    Symbols are their indices: 0 is the end-of-input token "$", 1 .. nterminal-1 are the
    other terminals, nterminal .. nsymbol-1 the nonterminals, and nsymbol itself is the
    artificial symbol "{default}".  Rules are numbered by `iRule`. */
module Grammars {

  datatype Assoc = LEFT | RIGHT | NONE | UNK

  /** Precedence is -1 when undefined. */
  datatype Symbol = Symbol(prec: int, assoc: Assoc)

  /** `index` is the position of the rule in the grammar file, which orders configurations;
      `precsym` is -1 when the rule has no precedence symbol. */
  datatype Rule = Rule(lhs: nat, rhs: seq<nat>, index: int, precsym: int, noCode: bool)

  datatype Grammar = Grammar(nterminal: nat, symbols: seq<Symbol>, rules: seq<Rule>, start: nat) {

    function NSymbol(): nat { |symbols| }

    predicate Nonterminal(x: nat) { nterminal <= x < |symbols| }

    /** What the scanner guarantees about the numbered grammar: "$" never occurs in a rule. */
    predicate Valid() {
      && 0 < nterminal
      && Nonterminal(start)
      && (forall r | 0 <= r < |rules| :: ValidRule(rules[r]))
      && (forall r, q | 0 <= r < |rules| && 0 <= q < |rules| && rules[r].index == rules[q].index :: r == q)
    }

    predicate ValidRule(rule: Rule) {
      && Nonterminal(rule.lhs)
      && (forall i | 0 <= i < |rule.rhs| :: 0 < rule.rhs[i] < |symbols|)
      && -1 <= rule.precsym < |symbols|
    }

    /** The restriction `FindStates` reports an error about. */
    predicate StartOffRhs() {
      forall r | 0 <= r < |rules| :: start !in rules[r].rhs
    }
  }

  /** A partial parse tree: a leaf may be a terminal or a nonterminal that is not expanded. */
  datatype Tree = Leaf(sym: nat) | Node(rule: nat, kids: seq<Tree>)

  function Root(g: Grammar, t: Tree): nat {
    match t
    case Leaf(x) => x
    case Node(r, _) => if r < |g.rules| then g.rules[r].lhs else 0
  }

  function Roots(g: Grammar, ts: seq<Tree>): seq<nat> {
    seq(|ts|, i requires 0 <= i < |ts| => Root(g, ts[i]))
  }

  predicate ValidTree(g: Grammar, t: Tree) {
    match t
    case Leaf(x) => x < g.NSymbol()
    case Node(r, kids) =>
      && r < |g.rules|
      && Roots(g, kids) == g.rules[r].rhs
      && forall i | 0 <= i < |kids| :: ValidTree(g, kids[i])
  }

  predicate ValidForest(g: Grammar, ts: seq<Tree>) {
    forall i | 0 <= i < |ts| :: ValidTree(g, ts[i])
  }

  /** The sentential form at the leaves. */
  function Yield(t: Tree): seq<nat>
    decreases t, 1
  {
    match t
    case Leaf(x) => [x]
    case Node(_, kids) => YieldAll(kids)
  }

  function YieldAll(ts: seq<Tree>): seq<nat>
    decreases ts, 0
  {
    if ts == [] then [] else Yield(ts[0]) + YieldAll(ts[1..])
  }

  lemma {:induction false} YieldAllConcat(a: seq<Tree>, b: seq<Tree>)
    ensures YieldAll(a + b) == YieldAll(a) + YieldAll(b)
  {
    if a == [] {
      assert a + b == b;
    } else {
      YieldAllConcat(a[1..], b);
      assert (a + b)[1..] == a[1..] + b;
      assert YieldAll(a + b) == Yield(a[0]) + (YieldAll(a[1..]) + YieldAll(b));
    }
  }

  /** X =>* w. */
  ghost predicate Derives(g: Grammar, x: nat, w: seq<nat>) {
    exists t :: ValidTree(g, t) && Root(g, t) == x && Yield(t) == w
  }

  /** One rewriting step on sentential forms: some occurrence of a left-hand side becomes the
      right-hand side of its rule. */
  ghost predicate Rewrites(g: Grammar, u: seq<nat>, v: seq<nat>) {
    exists i, r :: RewritesAt(g, u, v, i, r)
  }

  ghost predicate RewritesAt(g: Grammar, u: seq<nat>, v: seq<nat>, i: nat, r: nat) {
    && i < |u|
    && r < |g.rules|
    && u[i] == g.rules[r].lhs
    && v == u[..i] + g.rules[r].rhs + u[i + 1..]
  }

  ghost predicate IsDerivation(g: Grammar, d: seq<seq<nat>>, u: seq<nat>, v: seq<nat>) {
    && d != []
    && d[0] == u
    && d[|d| - 1] == v
    && forall i | 0 <= i < |d| - 1 :: Rewrites(g, d[i], d[i + 1])
  }

  lemma ConcatDerivations(g: Grammar, d: seq<seq<nat>>, e: seq<seq<nat>>, u: seq<nat>, v: seq<nat>, w: seq<nat>)
    requires IsDerivation(g, d, u, v)
    requires IsDerivation(g, e, v, w)
    ensures IsDerivation(g, d + e[1..], u, w)
  {
    var f := d + e[1..];
    assert f[|f| - 1] == w;
    forall i | 0 <= i < |f| - 1
      ensures Rewrites(g, f[i], f[i + 1])
    {
      if i >= |d| - 1 {
        assert f[i] == e[i - |d| + 1] && f[i + 1] == e[i + 1 - |d| + 1];
      }
    }
  }

  /** A derivation still runs with the same text before and behind every sentential form. */
  lemma DerivationInContext(g: Grammar, d: seq<seq<nat>>, u: seq<nat>, v: seq<nat>, left: seq<nat>, right: seq<nat>)
    returns (e: seq<seq<nat>>)
    requires IsDerivation(g, d, u, v)
    ensures IsDerivation(g, e, left + u + right, left + v + right)
  {
    e := seq(|d|, i requires 0 <= i < |d| => left + d[i] + right);
    forall k | 0 <= k < |e| - 1
      ensures Rewrites(g, e[k], e[k + 1])
    {
      assert Rewrites(g, d[k], d[k + 1]);
      var i: nat, r: nat :| RewritesAt(g, d[k], d[k + 1], i, r);
      var p := d[k];
      assert e[k][..i + |left|] == left + p[..i];
      assert e[k][i + |left| + 1..] == p[i + 1..] + right;
      assert e[k + 1] == left + (p[..i] + g.rules[r].rhs + p[i + 1..]) + right
                      == (left + p[..i]) + g.rules[r].rhs + (p[i + 1..] + right);
      assert RewritesAt(g, e[k], e[k + 1], i + |left|, r);
    }
  }

  /** Trees are rewriting derivations: the root rewrites to the yield. */
  lemma {:induction false} TreeIsDerivation(g: Grammar, t: Tree) returns (d: seq<seq<nat>>)
    requires ValidTree(g, t)
    ensures IsDerivation(g, d, [Root(g, t)], Yield(t))
    decreases t, 1
  {
    match t
    case Leaf(x) =>
      d := [[x]];
    case Node(r, kids) =>
      var e := ForestIsDerivation(g, kids);
      var rhs := g.rules[r].rhs;
      assert [g.rules[r].lhs][..0] + rhs + [g.rules[r].lhs][1..] == rhs;
      assert RewritesAt(g, [g.rules[r].lhs], rhs, 0, r);
      assert IsDerivation(g, [[g.rules[r].lhs], rhs], [g.rules[r].lhs], rhs);
      d := [[g.rules[r].lhs], rhs] + e[1..];
      ConcatDerivations(g, [[g.rules[r].lhs], rhs], e, [g.rules[r].lhs], rhs, Yield(t));
  }

  lemma {:induction false} ForestIsDerivation(g: Grammar, ts: seq<Tree>) returns (d: seq<seq<nat>>)
    requires ValidForest(g, ts)
    ensures IsDerivation(g, d, Roots(g, ts), YieldAll(ts))
    decreases ts, 0
  {
    if ts == [] {
      d := [[]];
      assert Roots(g, ts) == [];
    } else {
      var head := TreeIsDerivation(g, ts[0]);
      var tail := ForestIsDerivation(g, ts[1..]);
      var u, v := [Root(g, ts[0])], Roots(g, ts[1..]);
      var d0 := DerivationInContext(g, head, u, Yield(ts[0]), [], v);
      var d1 := DerivationInContext(g, tail, v, YieldAll(ts[1..]), Yield(ts[0]), []);
      assert [] + u + v == Roots(g, ts);
      assert [] + Yield(ts[0]) + v == Yield(ts[0]) + v + [];
      assert Yield(ts[0]) + YieldAll(ts[1..]) + [] == YieldAll(ts);
      d := d0 + d1[1..];
      ConcatDerivations(g, d0, d1, Roots(g, ts), Yield(ts[0]) + v, YieldAll(ts));
    }
  }

  /** Expanding the i-th leaf of a tree by a tree with that root. */
  lemma {:induction false} Graft(g: Grammar, t: Tree, i: nat, s: Tree) returns (t': Tree)
    requires ValidTree(g, t) && ValidTree(g, s)
    requires i < |Yield(t)| && Yield(t)[i] == Root(g, s)
    ensures ValidTree(g, t') && Root(g, t') == Root(g, t)
    ensures Yield(t') == Replace(Yield(t), i, Yield(s))
    decreases t, 1
  {
    match t
    case Leaf(x) =>
      t' := s;
    case Node(r, kids) =>
      var kids' := GraftForest(g, kids, i, s);
      t' := Node(r, kids');
  }

  lemma {:induction false} GraftForest(g: Grammar, ts: seq<Tree>, i: nat, s: Tree) returns (ts': seq<Tree>)
    requires ValidForest(g, ts) && ValidTree(g, s)
    requires i < |YieldAll(ts)| && YieldAll(ts)[i] == Root(g, s)
    ensures ValidForest(g, ts') && Roots(g, ts') == Roots(g, ts)
    ensures YieldAll(ts') == Replace(YieldAll(ts), i, Yield(s))
    decreases ts, 0
  {
    var first, rest := Yield(ts[0]), YieldAll(ts[1..]);
    ConsForest(g, ts[0], ts[1..]);
    assert [ts[0]] + ts[1..] == ts;
    if i < |first| {
      var t' := Graft(g, ts[0], i, s);
      ts' := [t'] + ts[1..];
      ConsForest(g, t', ts[1..]);
      ReplaceLeft(first, rest, i, Yield(s));
    } else {
      var tail := GraftForest(g, ts[1..], i - |first|, s);
      ts' := [ts[0]] + tail;
      ConsForest(g, ts[0], tail);
      ReplaceRight(first, rest, i, Yield(s));
    }
  }

  lemma ConsForest(g: Grammar, t: Tree, ts: seq<Tree>)
    ensures Roots(g, [t] + ts) == [Root(g, t)] + Roots(g, ts)
    ensures YieldAll([t] + ts) == Yield(t) + YieldAll(ts)
  {
    assert ([t] + ts)[1..] == ts;
  }

  /** Replacing element i of a concatenation replaces it in the part that holds it. */
  function Replace<T>(a: seq<T>, i: nat, m: seq<T>): seq<T>
    requires i < |a|
  {
    a[..i] + m + a[i + 1..]
  }

  lemma ReplaceLeft<T>(a: seq<T>, b: seq<T>, i: nat, m: seq<T>)
    requires i < |a|
    ensures Replace(a + b, i, m) == Replace(a, i, m) + b
  {
  }

  lemma ReplaceRight<T>(a: seq<T>, b: seq<T>, i: nat, m: seq<T>)
    requires |a| <= i < |a + b|
    ensures Replace(a + b, i, m) == a + Replace(b, i - |a|, m)
  {
  }

  /** The frontier of unexpanded leaves spelling w. */
  function Leaves(w: seq<nat>): (ts: seq<Tree>) {
    seq(|w|, i requires 0 <= i < |w| => Leaf(w[i]))
  }

  lemma {:induction false} LeavesYield(g: Grammar, w: seq<nat>)
    ensures YieldAll(Leaves(w)) == w && Roots(g, Leaves(w)) == w
  {
    if w != [] {
      LeavesYield(g, w[1..]);
      assert Leaves(w)[1..] == Leaves(w[1..]);
    }
  }

  /** Conversely every rewriting derivation from one symbol is a tree. */
  lemma {:induction false} DerivationIsTree(g: Grammar, d: seq<seq<nat>>, x: nat, w: seq<nat>)
    requires g.Valid() && x < g.NSymbol()
    requires IsDerivation(g, d, [x], w)
    ensures Derives(g, x, w)
  {
    if |d| == 1 {
      assert Yield(Leaf(x)) == w;
    } else {
      var d', u := d[..|d| - 1], d[|d| - 2];
      assert IsDerivation(g, d', [x], u);
      DerivationIsTree(g, d', x, u);
      var t :| ValidTree(g, t) && Root(g, t) == x && Yield(t) == u;
      assert Rewrites(g, d[|d| - 2], d[|d| - 2 + 1]);
      var i: nat, r: nat :| RewritesAt(g, u, w, i, r);
      var rhs := g.rules[r].rhs;
      assert g.ValidRule(g.rules[r]);
      LeavesYield(g, rhs);
      var t' := Graft(g, t, i, Node(r, Leaves(rhs)));
      assert Yield(t') == w;
    }
  }

  /** The two readings of X =>* w agree. */
  lemma DerivesIffRewrites(g: Grammar, x: nat, w: seq<nat>)
    requires g.Valid() && x < g.NSymbol()
    ensures Derives(g, x, w) <==> exists d :: IsDerivation(g, d, [x], w)
  {
    if Derives(g, x, w) {
      var t :| ValidTree(g, t) && Root(g, t) == x && Yield(t) == w;
      var d := TreeIsDerivation(g, t);
    }
    if d :| IsDerivation(g, d, [x], w) {
      DerivationIsTree(g, d, x, w);
    }
  }
}
