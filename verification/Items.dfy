/** Configurations (rules with a dot), their closure and goto, and the canonical LR(0)
    collection they span. */
module Items {
  import opened Grammars

  datatype Item = Item(rule: nat, dot: nat)

  predicate ValidItem(g: Grammar, i: Item) {
    i.rule < |g.rules| && i.dot <= |g.rules[i.rule].rhs|
  }

  predicate AtEnd(g: Grammar, i: Item) {
    i.rule < |g.rules| && i.dot == |g.rules[i.rule].rhs|
  }

  /** x stands behind the dot. */
  predicate Shifts(g: Grammar, i: Item, x: nat) {
    && i.rule < |g.rules|
    && i.dot < |g.rules[i.rule].rhs|
    && g.rules[i.rule].rhs[i.dot] == x
  }

  /** What is left of a right-hand side behind the symbol behind the dot. */
  function Tail(g: Grammar, i: Item): seq<nat>
    requires i.rule < |g.rules| && i.dot < |g.rules[i.rule].rhs|
  {
    g.rules[i.rule].rhs[i.dot + 1..]
  }

  function Advance(i: Item): Item {
    Item(i.rule, i.dot + 1)
  }

  /** j starts a rule of the nonterminal behind the dot of i. */
  predicate Expands(g: Grammar, i: Item, j: Item) {
    && j.dot == 0
    && j.rule < |g.rules|
    && Shifts(g, i, g.rules[j.rule].lhs)
  }

  // ---------------------------------------------------------------- closure and goto

  ghost function AllItems(g: Grammar): set<Item> {
    set r, d | 0 <= r < |g.rules| && 0 <= d <= |g.rules[r].rhs| :: Item(r, d)
  }

  ghost predicate Closed(g: Grammar, s: set<Item>) {
    forall i, j | i in s && Expands(g, i, j) :: j in s
  }

  /** The least closed set that contains k. */
  ghost function Closure(g: Grammar, k: set<Item>): set<Item> {
    set i | i in AllItems(g) && InEveryClosed(g, k, i)
  }

  ghost predicate InEveryClosed(g: Grammar, k: set<Item>, i: Item) {
    forall t: set<Item> | k <= t && Closed(g, t) :: i in t
  }

  lemma ClosureIsClosed(g: Grammar, k: set<Item>)
    requires k <= AllItems(g)
    ensures k <= Closure(g, k) <= AllItems(g)
    ensures Closed(g, Closure(g, k))
  {
    forall i, j | i in Closure(g, k) && Expands(g, i, j)
      ensures j in Closure(g, k)
    {
      assert j in AllItems(g);
      forall t: set<Item> | k <= t && Closed(g, t)
        ensures j in t
      {
        assert i in t;
      }
    }
  }

  lemma ClosureIsLeast(g: Grammar, k: set<Item>, t: set<Item>)
    requires k <= t && Closed(g, t)
    ensures Closure(g, k) <= t
  {
  }

  /** An item of the closure is in the kernel or starts a rule asked for by another item. */
  lemma ClosureOrigin(g: Grammar, k: set<Item>, j: Item)
    requires k <= AllItems(g) && j in Closure(g, k) && j !in k
    ensures j.dot == 0
    ensures exists i :: i in Closure(g, k) && Expands(g, i, j)
  {
    if !exists i :: i in Closure(g, k) && Expands(g, i, j) {
      ClosureIsClosed(g, k);
      var t := Closure(g, k) - {j};
      assert Closed(g, t);
      ClosureIsLeast(g, k, t);
    }
  }

  ghost function Goto(g: Grammar, s: set<Item>, x: nat): set<Item> {
    set i | i in s && Shifts(g, i, x) :: Advance(i)
  }

  ghost function StartItems(g: Grammar): set<Item> {
    set r | 0 <= r < |g.rules| && g.rules[r].lhs == g.start :: Item(r, 0)
  }

  /** The kernel reached from the start by reading w. */
  ghost function KernelOf(g: Grammar, w: seq<nat>): set<Item> {
    if w == [] then StartItems(g)
    else Goto(g, Closure(g, KernelOf(g, w[..|w| - 1])), w[|w| - 1])
  }

  // ---------------------------------------------------------------- the order of configurations

  /** `Configcmp`: by rule index, then by dot. */
  function Configcmp(g: Grammar, a: Item, b: Item): int
    requires a.rule < |g.rules| && b.rule < |g.rules|
  {
    if g.rules[a.rule].index != g.rules[b.rule].index
    then g.rules[a.rule].index - g.rules[b.rule].index
    else a.dot - b.dot
  }

  /** The same as a comparison on all values; items of no rule do not occur in lists. */
  function ItemOrder(g: Grammar): (Item, Item) -> int {
    (a: Item, b: Item) =>
      if a.rule < |g.rules| && b.rule < |g.rules| then Configcmp(g, a, b)
      else if a.rule < |g.rules| then -1
      else if b.rule < |g.rules| then 1 else 0
  }

  lemma ConfigcmpZero(g: Grammar, a: Item, b: Item)
    requires g.Valid() && a.rule < |g.rules| && b.rule < |g.rules|
    ensures Configcmp(g, a, b) == 0 <==> a == b
  {
  }

  ghost predicate Distinct<T>(s: seq<T>) {
    forall i, j | 0 <= i < j < |s| :: s[i] != s[j]
  }

  ghost function Elements<T>(s: seq<T>): set<T> {
    set x | x in s
  }

  predicate ValidItems(g: Grammar, s: seq<Item>) {
    forall i | 0 <= i < |s| :: ValidItem(g, s[i])
  }

  /** Rules in the order of the grammar file, and for one rule the dot ever further to the right. */
  ghost predicate ItemBefore(g: Grammar, a: Item, b: Item)
    requires a.rule < |g.rules| && b.rule < |g.rules|
  {
    || g.rules[a.rule].index < g.rules[b.rule].index
    || (g.rules[a.rule].index == g.rules[b.rule].index && a.dot < b.dot)
  }

  /** A list of configurations as the builder stores it: sorted, without repetition. */
  ghost predicate SortedItems(g: Grammar, s: seq<Item>) {
    && ValidItems(g, s)
    && forall i, j | 0 <= i < j < |s| :: ItemBefore(g, s[i], s[j])
  }

  /** So equal kernels have equal lists. */
  lemma {:induction false} SortedItemsUnique(g: Grammar, s: seq<Item>, t: seq<Item>)
    requires g.Valid() && SortedItems(g, s) && SortedItems(g, t)
    requires Elements(s) == Elements(t)
    ensures s == t
  {
    EmptyElements(s);
    EmptyElements(t);
    if s != [] && t != [] {
      SameFirst(g, s, t);
      ElementsTail(g, s);
      ElementsTail(g, t);
      SortedItemsUnique(g, s[1..], t[1..]);
      assert s == [s[0]] + s[1..] && t == [t[0]] + t[1..];
    }
  }

  lemma EmptyElements<T>(s: seq<T>)
    ensures Elements(s) == {} <==> s == []
  {
    if s != [] {
      assert s[0] in Elements(s);
    }
  }

  lemma SameFirst(g: Grammar, s: seq<Item>, t: seq<Item>)
    requires g.Valid() && SortedItems(g, s) && SortedItems(g, t)
    requires s != [] && t != [] && Elements(s) == Elements(t)
    ensures s[0] == t[0]
  {
    assert s[0] in Elements(t) && t[0] in Elements(s);
    FirstIsLeast(g, s, t[0]);
    FirstIsLeast(g, t, s[0]);
  }

  lemma FirstIsLeast(g: Grammar, s: seq<Item>, x: Item)
    requires SortedItems(g, s) && x in s
    ensures x == s[0] || ItemBefore(g, s[0], x)
  {
  }

  lemma ElementsTail(g: Grammar, s: seq<Item>)
    requires SortedItems(g, s) && s != []
    ensures SortedItems(g, s[1..])
    ensures Elements(s[1..]) == Elements(s) - {s[0]}
  {
    forall i, j | 0 <= i < j < |s[1..]|
      ensures ItemBefore(g, s[1..][i], s[1..][j])
    {
      assert ItemBefore(g, s[i + 1], s[j + 1]);
    }
    assert s == [s[0]] + s[1..];
    forall x | x in s[1..]
      ensures x != s[0]
    {
      var i :| 0 <= i < |s[1..]| && s[1..][i] == x;
      assert ItemBefore(g, s[0], s[i + 1]);
    }
  }
}
