/** What the numbers of actions decide: which states are left out of the tables, and whether the assertion of
    `yy_find_shift_action` about YY_SHIFT_COUNT holds, with a grammar for which it fails. */
module ShiftCounts {
  import opened Grammars
  import opened Items
  import opened Actions
  import opened Collections
  import opened Conflicts
  import opened Machines
  import opened Compression
  import opened CompressedTables
  import opened RowFacts
  import opened SoundTables
  import opened Exactness
  import opened Completeness
  import opened Resorting
  import opened Emission
  import opened Generators

  // ---------------------------------------------------------------- counts

  lemma {:induction false} NoTokens(g: Grammar, row: seq<Action>)
    ensures TokenCount(g, row) == 0 <==> forall a | a in row && Live(a) :: a.sp >= g.nterminal
  {
    hide Live;
    if row != [] {
      var n := |row| - 1;
      NoTokens(g, row[..n]);
      assert row == row[..n] + [row[n]];
    }
  }

  lemma {:induction false} NoNonterminals(g: Grammar, row: seq<Action>)
    ensures NtCount(g, row) == 0 <==> forall a | a in row && Live(a) :: !g.Nonterminal(a.sp)
  {
    hide Live;
    if row != [] {
      var n := |row| - 1;
      NoNonterminals(g, row[..n]);
      assert row == row[..n] + [row[n]];
    }
  }

  lemma {:induction false} OneNonterminal(g: Grammar, row: seq<Action>, x: nat)
    requires OneLive(row) && forall a | a in row && Live(a) && g.Nonterminal(a.sp) :: a.sp == x
    ensures NtCount(g, row) <= 1
  {
    hide Live;
    if row != [] {
      var n := |row| - 1;
      OneNonterminal(g, row[..n], x);
      if Live(row[n]) && g.Nonterminal(row[n].sp) {
        assert row[n] in row;
        forall a | a in row[..n] && Live(a)
          ensures !g.Nonterminal(a.sp)
        {
          var i :| 0 <= i < n && row[i] == a;
          assert a in row;
        }
        NoNonterminals(g, row[..n]);
      }
    }
  }

  // ---------------------------------------------------------------- what a state has in the tables

  /** A state that shifts no token and completes one rule only, not of the start symbol, has no token
      action: what it reduces becomes its default. */
  lemma OnlyDefault(b: Build, p: nat, r: nat)
    requires b.Ok() && p < |b.states| && p < |b.res| && r < |b.g.rules| && b.g.rules[r].lhs != b.g.start
    requires forall x: nat | x < b.g.nterminal :: !HasGoto(b.g, b.states, p, x)
    requires forall r': nat | Complete(b.g, b.states, p, r') :: r' == r
    ensures TokenCount(b.g, b.res[p]) == 0
  {
    hide Build.Ok, TokenCount, Complete, HasGoto, LiveOn;
    forall a | a in b.res[p] && Live(a)
      ensures a.sp >= b.g.nterminal
    {
      if a.sp < b.g.nterminal {
        NoneOnToken(b, p, r, a.sp);
        assert LiveOn(b.res[p], a.sp) == [];
        LiveOnHas(b.res[p], a);
      }
    }
    NoTokens(b.g, b.res[p]);
  }

  lemma LiveOnHas(row: seq<Action>, a: Action)
    requires a in row && Live(a)
    ensures LiveOn(row, a.sp) != []
  {
  }

  lemma NoneOnToken(b: Build, p: nat, r: nat, x: nat)
    requires b.Ok() && p < |b.states| && p < |b.res| && r < |b.g.rules| && b.g.rules[r].lhs != b.g.start
    requires forall x: nat | x < b.g.nterminal :: !HasGoto(b.g, b.states, p, x)
    requires forall r': nat | Complete(b.g, b.states, p, r') :: r' == r
    requires x < b.g.nterminal
    ensures LiveOn(b.res[p], x) == []
  {
    hide Build.Ok, Complete, HasGoto, LiveOn, ActionRow, CompressedRow, BestOk, OneLive, LowSymbols, Automatic;
    Facts(b, p);
    CompressedLookup(b, p, x);
    StartIsNonterminal(b);
    TokensAreSymbols(b);
    var row := b.rows[p];
    if LiveOn(row, x) != [] {
      var w := LiveOn(row, x)[0];
      OnlyReduces(b, p, r, w);
      BestIsOnly(b, p, r, w);
    }
  }

  lemma OnlyReduces(b: Build, p: nat, r: nat, w: Action)
    requires b.Ok() && p < |b.states| && p < |b.rows| && r < |b.g.rules| && LiveIn(b.rows[p], w)
    requires forall x: nat | x < b.g.nterminal :: !HasGoto(b.g, b.states, p, x)
    requires forall r': nat | Complete(b.g, b.states, p, r') :: r' == r
    requires w.sp < b.g.nterminal
    ensures w.typ == REDUCE && w.x == r
  {
    hide ActionRow, Complete;
    Facts(b, p);
    LiveFacts(b.g, b.states, b.fws, p, b.rows[p], w);
    StartIsNonterminal(b);
  }

  lemma BestIsOnly(b: Build, p: nat, r: nat, w: Action)
    requires b.Ok() && p < |b.states| && p < |b.rows| && r < |b.g.rules| && b.g.rules[r].lhs != b.g.start
    requires forall x: nat | x < b.g.nterminal :: !HasGoto(b.g, b.states, p, x)
    requires forall r': nat | Complete(b.g, b.states, p, r') :: r' == r
    requires LiveIn(b.rows[p], w) && w == Action(w.sp, REDUCE, r)
    ensures p < |b.best| && b.best[p] == r
  {
    hide Build.Ok, ActionRow, Complete, HasGoto, CompressedRow, BestOk, OneLive, LowSymbols, Automatic;
    Facts(b, p);
    assert Defaultable(b.g, w);
    var a :| a in b.rows[p] && Defaultable(b.g, a) && a.x == b.best[p];
    RowShapeOf(b, p, a);
    OnlyReduces(b, p, r, a);
  }

  lemma RowShapeOf(b: Build, p: nat, a: Action)
    requires b.Ok() && p < |b.states| && p < |b.rows| && a in b.rows[p] && a.typ == REDUCE
    ensures a.sp < b.g.nterminal && LiveIn(b.rows[p], a)
  {
    hide ActionRow;
    Facts(b, p);
    RowShape(b.g, b.states, b.fws, p, b.rows[p]);
  }

  /** A state with a goto on a nonterminal is counted with it. */
  lemma GotoCounted(b: Build, p: nat, x: nat)
    requires b.Ok() && p < |b.states| && p < |b.res| && HasGoto(b.g, b.states, p, x) && b.g.Nonterminal(x)
    ensures NtCount(b.g, b.res[p]) > 0
  {
    hide ActionRow, HasGoto, LiveOn, NtCount, Automatic, IsBest, BestOk;
    Facts(b, p);
    GotoLive(b.g, b.states, b.fws, p, b.rows[p], x);
    MidLookup(b.g, b.rows[p], b.best[p], b.auto, b.best, x);
    assert LiveOn(b.res[p], x) != [];
    NoNonterminals(b.g, b.res[p]);
  }

  /** And a state whose only goto on nonterminals is on x has no other action on them. */
  lemma GotosCounted(b: Build, p: nat, x: nat)
    requires b.Ok() && 0 < p < |b.states| && p < |b.res|
    requires forall y: nat | b.g.Nonterminal(y) && HasGoto(b.g, b.states, p, y) :: y == x
    ensures NtCount(b.g, b.res[p]) <= 1
  {
    hide ActionRow, HasGoto, NtCount, Automatic, IsBest, BestOk;
    Facts(b, p);
    forall a | a in b.res[p] && Live(a) && b.g.Nonterminal(a.sp)
      ensures a.sp == x
    {
      OnlyGotos(b, p, a);
    }
    OneNonterminal(b.g, b.res[p], x);
  }

  lemma OnlyGotos(b: Build, p: nat, a: Action)
    requires b.Ok() && 0 < p < |b.states| && p < |b.res| && a in b.res[p] && Live(a) && b.g.Nonterminal(a.sp)
    ensures HasGoto(b.g, b.states, p, a.sp)
  {
    hide ActionRow, HasGoto, Automatic, IsBest, BestOk, LiveOn;
    Facts(b, p);
    LiveOnHas(b.res[p], a);
    MidLookup(b.g, b.rows[p], b.best[p], b.auto, b.best, a.sp);
    var w := LiveOn(b.rows[p], a.sp)[0];
    LiveFacts(b.g, b.states, b.fws, p, b.rows[p], w);
  }

  // ---------------------------------------------------------------- automatic states

  /** An automatic state has no action but its default. */
  lemma AutomaticIsIdle(b: Build, s: nat)
    requires b.Ok() && 0 < s < |b.states| && s < |b.res| && s < |b.auto| && b.auto[s]
    ensures Idle(b.g, b.res, s)
  {
    hide Build.Ok, TokenCount, NtCount, LiveOn;
    forall a | a in b.res[s] && Live(a)
      ensures a.sp >= b.g.NSymbol()
    {
      LiveOnHas(b.res[s], a);
      if a.sp < b.g.NSymbol() { NothingKept(b, s, a.sp); }
    }
    TokensAreSymbols(b);
    NoTokens(b.g, b.res[s]);
    NoNonterminals(b.g, b.res[s]);
  }

  lemma NothingKept(b: Build, s: nat, x: nat)
    requires b.Ok() && 0 < s < |b.states| && s < |b.res| && s < |b.auto| && b.auto[s] && x < b.g.NSymbol()
    ensures LiveOn(b.res[s], x) == []
  {
    hide LiveOn, ActionRow, IsBest, HasGoto;
    Facts(b, s);
    MidLookup(b.g, b.rows[s], b.best[s], b.auto, b.best, x);
    if LiveOn(b.rows[s], x) != [] {
      var w := LiveOn(b.rows[s], x)[0];
      LiveFacts(b.g, b.states, b.fws, s, b.rows[s], w);
    }
  }

  /** A state that is not automatic keeps an action, unless it had none. */
  lemma BusyState(b: Build, s: nat)
    requires b.Ok() && s < |b.states| && s < |b.rows| && s < |b.res| && s < |b.auto| && !b.auto[s]
    ensures Idle(b.g, b.res, s) <==> b.rows[s] == []
  {
    hide Build.Ok, TokenCount, NtCount, LiveOn;
    NoTokens(b.g, b.res[s]);
    NoNonterminals(b.g, b.res[s]);
    TokensAreSymbols(b);
    if b.rows[s] == [] {
      forall a | a in b.res[s] && Live(a)
        ensures a.sp >= b.g.NSymbol()
      {
        LiveOnHas(b.res[s], a);
        if a.sp < b.g.NSymbol() { NothingMade(b, s, a.sp); }
      }
    } else {
      var x := SomeKept(b, s);
      assert LiveOn(b.res[s], x) != [];
    }
  }

  lemma NothingMade(b: Build, s: nat, x: nat)
    requires b.Ok() && s < |b.states| && s < |b.rows| && s < |b.res| && b.rows[s] == [] && x < b.g.NSymbol()
    ensures LiveOn(b.res[s], x) == []
  {
    hide ActionRow, IsBest;
    Facts(b, s);
    MidLookup(b.g, b.rows[s], b.best[s], b.auto, b.best, x);
  }

  lemma SomeKept(b: Build, s: nat) returns (x: nat)
    requires b.Ok() && s < |b.states| && s < |b.rows| && s < |b.res| && s < |b.auto| && !b.auto[s] && b.rows[s] != []
    ensures x < b.g.NSymbol() && LiveOn(b.res[s], x) != []
  {
    hide LiveOn, Build.Ok, BestOk, IsBest, Automatic, OneLive, Live, Reduces;
    Facts(b, s);
    var w := NotByDefault(b.g, b.states, b.fws, s, b.rows[s], b.best[s]);
    hide ActionRow;
    x := w.sp;
    MidLookup(b.g, b.rows[s], b.best[s], b.auto, b.best, x);
    LiveOnUnique(b.rows[s], w);
  }

  lemma NotByDefault(g: Grammar, states: seq<State>, fws: map<Config, set<nat>>, s: nat, row: seq<Action>, best: int)
    returns (w: Action)
    requires s < |states| && ActionRow(g, states, fws, s, row) && row != [] && !Automatic(row, best) && -1 <= best
    ensures LiveIn(row, w) && !Reduces(w, best)
  {
    if best >= 0 {
      w :| w in row && (w.typ == SHIFT || w.typ == REDUCE) && !Reduces(w, best);
    } else {
      assert GroupLives(row, row[0].sp);
      var j :| 0 <= j < |row| && row[j].sp == row[0].sp && Live(row[j]);
      w := row[j];
    }
  }

  /** A state other than state 0 is automatic if and only if it has actions and none but its default is left. */
  lemma AutomaticIff(b: Build, s: nat)
    requires b.Ok() && 0 < s < |b.states| && s < |b.rows| && s < |b.res| && s < |b.auto|
    ensures b.auto[s] <==> b.rows[s] != [] && Idle(b.g, b.res, s)
  {
    hide Build.Ok, Idle;
    if b.auto[s] {
      AutomaticIsIdle(b, s);
      AutomaticNotEmpty(b, s);
    } else {
      BusyState(b, s);
    }
  }

  /** In the emitted parser all automatic states but state 0 are left out if and only if no state without any
      action comes before one of them. */
  lemma AutomaticStatesLeftOut(b: Build, v: Numbering)
    requires b.Ok() && v.Ok() && v.g == b.g && v.rows == b.res && v.auto == b.auto
    ensures |b.rows| == |b.auto| == |v.statenum|
    ensures (forall s | 0 < s < |b.auto| && b.auto[s] :: v.statenum[s] >= v.nxstate) <==>
            !exists q: nat, s: nat | 0 < q < s < |b.auto| :: b.rows[q] == [] && b.auto[s]
  {
    hide Build.Ok, Idle, TableRows;
    SizesOf(b);
    forall s | 0 < s < |b.auto| && b.auto[s]
      ensures Idle(b.g, b.res, s) && b.rows[s] != []
    {
      AutomaticIff(b, s);
    }
    AutomaticLeftOut(b.g, b.res, b.auto, v.sorted, v.statenum, v.nxstate);
    forall q | 0 < q < |b.auto| && !b.auto[q]
      ensures Idle(b.g, b.res, q) <==> b.rows[q] == []
    {
      BusyState(b, q);
    }
    assert forall q: nat, s: nat | 0 < q < s < |b.auto| ::
        HeldBack(b.g, b.res, b.auto, q, s) <==> b.rows[q] == [] && b.auto[s];
  }

  lemma AutomaticNotEmpty(b: Build, s: nat)
    requires b.Ok() && s < |b.states| && s < |b.rows| && s < |b.auto| && b.auto[s]
    ensures b.rows[s] != []
  {
    hide ActionRow;
    Facts(b, s);
  }

  // ---------------------------------------------------------------- the grammar

  /** The grammar  s ::= a.  a ::= .  a ::= a b.  b ::= X c.  c ::= .  with $ 0, X 1, s 2, a 3, b 4, c 5. */
  function Unguarded(): Grammar {
    Grammar(2, seq(6, i => Symbol(-1, UNK)),
            [Rule(2, [3], 0, -1, true), Rule(3, [], 1, -1, true), Rule(3, [3, 4], 2, -1, true),
             Rule(4, [1, 5], 3, -1, true), Rule(5, [], 4, -1, true)], 2)
  }

  lemma StateClosed(g: Grammar, states: seq<State>, s: nat)
    requires Canonical(g, states) && s < |states|
    ensures Closed(g, ItemsOf(states[s])) && Kernel(states[s]) <= ItemsOf(states[s])
    ensures ItemsOf(states[s]) == Closure(g, Kernel(states[s]))
  {
    assert StateOk(g, states[s]);
    KernelInItems(g, states[s]);
  }

  /** Asking for s, or for a, asks for a behind which b stands. */
  lemma AsksForA(k: set<Item>)
    requires Closed(Unguarded(), k) && Item(0, 0) in k
    ensures Item(2, 0) in k
  {
    assert Expands(Unguarded(), Item(0, 0), Item(2, 0));
  }

  /** The states behind a and behind a X. */
  lemma BehindX(states: seq<State>) returns (p: nat, q: nat)
    requires Unguarded().Valid() && Unguarded().StartOffRhs() && Canonical(Unguarded(), states)
    ensures ShiftTo(Unguarded(), states, 0, 3, p) && ShiftTo(Unguarded(), states, p, 1, q)
    ensures Kernel(states[q]) == {Item(3, 1)}
  {
    hide Canonical, Closure, Closed, KernelOf;
    var g := Unguarded();
    StartKernel(states);
    StateClosed(g, states, 0);
    AsksForA(ItemsOf(states[0]));
    assert Item(2, 0) in states[0].cfp && Shifts(g, Item(2, 0), 3);
    p := GotoState(g, states, 0, 3);
    StateClosed(g, states, p);
    assert Advance(Item(2, 0)) in Goto(g, ItemsOf(states[0]), 3);
    AsksForB(ItemsOf(states[p]));
    assert Item(3, 0) in states[p].cfp && Shifts(g, Item(3, 0), 1);
    q := GotoState(g, states, p, 1);
    OnlyBehindX(ItemsOf(states[p]));
  }

  lemma StartKernel(states: seq<State>)
    requires Canonical(Unguarded(), states)
    ensures |states| > 0 && Item(0, 0) in Kernel(states[0])
  {
  }

  lemma AsksForB(k: set<Item>)
    requires Closed(Unguarded(), k) && Item(2, 1) in k
    ensures Item(3, 0) in k
  {
    assert Expands(Unguarded(), Item(2, 1), Item(3, 0));
  }

  lemma OnlyBehindX(k: set<Item>)
    requires Item(3, 0) in k
    ensures Goto(Unguarded(), k, 1) == {Item(3, 1)}
  {
    assert Shifts(Unguarded(), Item(3, 0), 1) && Advance(Item(3, 0)) == Item(3, 1);
    forall i | i in k && Shifts(Unguarded(), i, 1)
      ensures i == Item(3, 0)
    {
    }
  }

  /** Behind a X there is only c, which is empty. */
  lemma ItemsBehindX(states: seq<State>, q: nat)
    requires Canonical(Unguarded(), states) && q < |states| && Kernel(states[q]) == {Item(3, 1)}
    ensures forall i | i in states[q].cfp :: i == Item(3, 1) || i == Item(4, 0)
    ensures Item(3, 1) in states[q].cfp
  {
    hide Canonical;
    StateClosed(Unguarded(), states, q);
    var done := {Item(3, 1), Item(4, 0)};
    assert Closed(Unguarded(), done);
    ClosureIsLeast(Unguarded(), {Item(3, 1)}, done);
    forall i | i in states[q].cfp
      ensures i == Item(3, 1) || i == Item(4, 0)
    {
      assert i in ItemsOf(states[q]);
    }
    assert Item(3, 1) in ItemsOf(states[q]);
  }

  /** So this state has one action on nonterminals and none on tokens, but is no automatic one. */
  lemma CountsBehindX(b: Build, q: nat)
    requires b.Ok() && b.g == Unguarded() && 0 < q < |b.states| && q < |b.res| && q < |b.auto|
    requires Kernel(b.states[q]) == {Item(3, 1)}
    ensures TokenCount(b.g, b.res[q]) == 0 && NtCount(b.g, b.res[q]) == 1 && !b.auto[q]
  {
    hide Build.Ok, TokenCount, NtCount, Canonical;
    ParserOk(b);
    ItemsBehindX(b.states, q);
    assert Shifts(b.g, Item(3, 1), 5) && HasGoto(b.g, b.states, q, 5);
    GotoCounted(b, q, 5);
    GotosCounted(b, q, 5);
    OnlyDefault(b, q, 4);
    NotAutomatic(b, q, 5);
  }

  lemma NotAutomatic(b: Build, q: nat, x: nat)
    requires b.Ok() && q < |b.states| && q < |b.auto| && HasGoto(b.g, b.states, q, x) && b.g.Nonterminal(x)
    ensures !b.auto[q]
  {
    hide ActionRow, HasGoto, LiveOn, CompressedRow, IsBest, BestOk;
    Facts(b, q);
    GotoLive(b.g, b.states, b.fws, q, b.rows[q], x);
    assert LiveOn(b.rows[q], x)[0] in b.rows[q];
  }

  /** A state without an action on nonterminals has its dots at the end of rules, and behind one symbol:
      of these rules it has one. */
  lemma EndState(states: seq<State>, p: nat) returns (r: nat)
    requires Unguarded().Valid() && Canonical(Unguarded(), states) && 0 < p < |states|
    requires forall x: nat | Unguarded().Nonterminal(x) :: !HasGoto(Unguarded(), states, p, x)
    ensures r == 2 || r == 3
    ensures forall i | i in states[p].cfp :: i == Item(r, 2)
  {
    hide Canonical, Closure, KernelOf;
    var g := Unguarded();
    StateClosed(g, states, p);
    var k, x := KernelBehind(g, states, p);
    r := if x == 4 then 2 else 3;
    NotBehindA(states, p, k, x);
    forall i | i in states[p].cfp
      ensures i == Item(r, 2)
    {
      assert i in ItemsOf(states[p]);
      InKernel(states, p, i);
      var j :| j in k && Shifts(g, j, x) && i == Advance(j);
      NothingBehind(states, p, i);
    }
  }

  /** Who has read a for s has also read it for a itself. */
  lemma ReadForBoth(k: set<Item>, x: nat)
    requires Closed(Unguarded(), k) && Item(0, 1) in Goto(Unguarded(), k, x)
    ensures Item(2, 1) in Goto(Unguarded(), k, x)
  {
    hide Closed;
    var i :| i in k && Shifts(Unguarded(), i, x) && Item(0, 1) == Advance(i);
    assert i == Item(0, 0);
    AsksForA(k);
    assert Shifts(Unguarded(), Item(2, 0), x) && Advance(Item(2, 0)) == Item(2, 1);
  }

  lemma NotBehindA(states: seq<State>, p: nat, k: set<Item>, x: nat)
    requires p < |states| && Closed(Unguarded(), k) && Kernel(states[p]) == Goto(Unguarded(), k, x)
    requires Kernel(states[p]) <= ItemsOf(states[p])
    requires forall x: nat | Unguarded().Nonterminal(x) :: !HasGoto(Unguarded(), states, p, x)
    ensures Item(0, 1) !in Kernel(states[p])
  {
    hide Closed, Goto;
    if Item(0, 1) in Kernel(states[p]) {
      ReadForBoth(k, x);
      NothingBehind(states, p, Item(2, 1));
    }
  }

  /** The kernel of a state other than the first is a goto on one symbol. */
  lemma KernelBehind(g: Grammar, states: seq<State>, p: nat) returns (k: set<Item>, x: nat)
    requires g.Valid() && Canonical(g, states) && 0 < p < |states|
    ensures Closed(g, k) && Kernel(states[p]) == Goto(g, k, x)
  {
    assert StateOk(g, states[p]) && StateOk(g, states[0]);
    var w :| KernelOf(g, w) == Kernel(states[p]);
    if w == [] { SameKernel(g, states, p, 0); }
    k, x := Closure(g, KernelOf(g, w[..|w| - 1])), w[|w| - 1];
    ItemsOfKernel(g, w[..|w| - 1]);
    ClosureIsClosed(g, KernelOf(g, w[..|w| - 1]));
  }

  lemma {:induction false} ItemsOfKernel(g: Grammar, w: seq<nat>)
    ensures KernelOf(g, w) <= AllItems(g)
  {
    if w != [] {
      ItemsOfKernel(g, w[..|w| - 1]);
      ClosureIsClosed(g, KernelOf(g, w[..|w| - 1]));
    }
  }

  lemma NothingBehind(states: seq<State>, p: nat, i: Item)
    requires p < |states| && i in ItemsOf(states[p])
    requires forall x: nat | Unguarded().Nonterminal(x) :: !HasGoto(Unguarded(), states, p, x)
    ensures i != Item(2, 1) && i != Item(3, 1) && i != Item(0, 0) && i != Item(2, 0)
  {
    if i == Item(2, 1) {
      GotoOn(states, p, i, 4);
    } else if i == Item(3, 1) {
      GotoOn(states, p, i, 5);
    } else if i == Item(0, 0) || i == Item(2, 0) {
      GotoOn(states, p, i, 3);
    }
  }

  lemma GotoOn(states: seq<State>, p: nat, i: Item, x: nat)
    requires p < |states| && i in ItemsOf(states[p]) && Shifts(Unguarded(), i, x)
    ensures HasGoto(Unguarded(), states, p, x)
  {
    assert i in states[p].cfp;
  }

  lemma LhsNonterminal(r: nat)
    requires r < |Unguarded().rules|
    ensures Unguarded().Nonterminal(Unguarded().rules[r].lhs)
  {
  }

  lemma InKernel(states: seq<State>, p: nat, i: Item)
    requires Canonical(Unguarded(), states) && p < |states| && i in ItemsOf(states[p])
    requires forall x: nat | Unguarded().Nonterminal(x) :: !HasGoto(Unguarded(), states, p, x)
    ensures i in Kernel(states[p])
  {
    hide Canonical;
    StateClosed(Unguarded(), states, p);
    if i !in Kernel(states[p]) {
      KernelItems(states, p);
      ClosureOrigin(Unguarded(), Kernel(states[p]), i);
      var j :| j in ItemsOf(states[p]) && Expands(Unguarded(), j, i);
      LhsNonterminal(i.rule);
      GotoOn(states, p, j, Unguarded().rules[i.rule].lhs);
    }
  }

  lemma KernelItems(states: seq<State>, p: nat)
    requires Canonical(Unguarded(), states) && p < |states|
    ensures Kernel(states[p]) <= AllItems(Unguarded())
  {
    assert StateOk(Unguarded(), states[p]);
    KernelInItems(Unguarded(), states[p]);
  }

  /** So it has no token action either. */
  lemma NoActions(b: Build, p: nat)
    requires b.Ok() && b.g == Unguarded() && 0 < p < |b.states| && p < |b.res| && NtCount(b.g, b.res[p]) == 0
    ensures TokenCount(b.g, b.res[p]) == 0
  {
    hide Build.Ok, TokenCount, NtCount, Canonical;
    ParserOk(b);
    forall x: nat | b.g.Nonterminal(x)
      ensures !HasGoto(b.g, b.states, p, x)
    {
      if HasGoto(b.g, b.states, p, x) { GotoCounted(b, p, x); }
    }
    var r := EndState(b.states, p);
    OnlyDefault(b, p, r);
  }

  // ---------------------------------------------------------------- the assertion fails

  /** Whatever is made of this grammar, the state behind a X, to which the parser shifts X, lies beyond
      YY_SHIFT_COUNT. */
  lemma ShiftBeyondCount(b: Build, v: Numbering, t: Tables) returns (p: nat, q: nat)
    requires Made(Unguarded(), b, v, t)
    ensures ShiftTo(b.g, b.states, 0, 3, p) && TokenMove(b.g, v.rows, At(p), 1) == Goto_(q)
    ensures q < |v.statenum| && |t.shiftOfst| <= v.statenum[q] < v.nxstate
  {
    hide Build.Ok, Numbering.Ok, Reported, Canonical;
    ParserOk(b);
    p, q := BehindX(b.states);
    NotFirst(b.states, q);
    Facts(b, q);
    CountsBehindX(b, q);
    MoveToX(b, p, q);
    AfterX(b, v, t, q);
  }

  lemma NotFirst(states: seq<State>, q: nat)
    requires Canonical(Unguarded(), states) && q < |states| && Kernel(states[q]) == {Item(3, 1)}
    ensures q > 0
  {
    StartKernel(states);
    assert Item(0, 0) !in {Item(3, 1)};
  }

  lemma MoveToX(b: Build, p: nat, q: nat)
    requires b.Ok() && b.g == Unguarded() && ShiftTo(b.g, b.states, 0, 3, p) && ShiftTo(b.g, b.states, p, 1, q)
    requires q < |b.auto| && !b.auto[q]
    ensures TokenMove(b.g, b.res, At(p), 1) == Goto_(q)
  {
    hide Build.Ok, ActionRow, CompressedRow, IsBest, BestOk, Automatic, LiveOn, TokenMove, Canonical;
    Facts(b, p);
    ParserOk(b);
    CompressedMove(b, p, 1);
    GotoLiveOf(b, p, 1);
    var w := LiveOn(b.rows[p], 1)[0];
    LiveFactOf(b, p, 1);
    if w.typ == SHIFT {
      SameState(b.g, b.states, p, 1, q, w.x);
    } else {
      NothingComplete(b.states, p, w.x);
    }
  }

  lemma GotoLiveOf(b: Build, s: nat, x: nat)
    requires b.Ok() && s < |b.states| && s < |b.rows| && HasGoto(b.g, b.states, s, x)
    ensures LiveOn(b.rows[s], x) != []
  {
    hide ActionRow;
    Facts(b, s);
    GotoLive(b.g, b.states, b.fws, s, b.rows[s], x);
  }

  /** Behind a, only the rule of s is complete. */
  lemma NothingComplete(states: seq<State>, p: nat, r: nat)
    requires Unguarded().Valid() && Unguarded().StartOffRhs() && Canonical(Unguarded(), states)
    requires ShiftTo(Unguarded(), states, 0, 3, p) && Complete(Unguarded(), states, p, r)
    ensures Unguarded().rules[r].lhs == Unguarded().start
  {
    hide Canonical;
    StateClosed(Unguarded(), states, p);
    var done := {Item(0, 1), Item(2, 1), Item(3, 0)};
    BehindA(ItemsOf(states[0]));
    ClosedBehindA();
    ClosureIsLeast(Unguarded(), Kernel(states[p]), done);
    assert Item(r, |Unguarded().rules[r].rhs|) in ItemsOf(states[p]);
  }

  lemma BehindA(k: set<Item>)
    ensures Goto(Unguarded(), k, 3) <= {Item(0, 1), Item(2, 1), Item(3, 0)}
  {
    forall i | i in k && Shifts(Unguarded(), i, 3)
      ensures i == Item(0, 0) || i == Item(2, 0)
    {
    }
  }

  lemma ClosedBehindA()
    ensures Closed(Unguarded(), {Item(0, 1), Item(2, 1), Item(3, 0)})
  {
    forall i, j | i in {Item(0, 1), Item(2, 1), Item(3, 0)} && Expands(Unguarded(), i, j)
      ensures j == Item(3, 0)
    {
    }
  }

  /** The states behind q in the final order have no token action. */
  lemma AfterX(b: Build, v: Numbering, t: Tables, q: nat)
    requires Made(Unguarded(), b, v, t) && 0 < q < |b.states| && q < |b.auto| && q < |b.res| && !b.auto[q]
    requires TokenCount(b.g, b.res[q]) == 0 && NtCount(b.g, b.res[q]) == 1
    ensures q < |v.statenum| && |t.shiftOfst| <= v.statenum[q] < v.nxstate
  {
    hide Build.Ok, Numbering.Ok, Reported, TokenCount, NtCount, Canonical;
    Facts(b, q);
    var i := NumberOf(v, q);
    var ofst, offsets :| Reported(v, t, ofst, offsets);
    TableSizes(v, t, ofst, offsets);
    if i < |t.shiftOfst| {
      var k := |t.shiftOfst| - 1;
      LastHasToken(v, t, ofst, offsets);
      Later(b, v, q, i, k);
    }
  }

  lemma NumberOf(v: Numbering, q: nat) returns (i: nat)
    requires v.Ok() && 0 < q < |v.auto| == |v.rows| && !v.auto[q]
    ensures |v.sorted| == |v.statenum| == |v.rows| && i == v.statenum[q] && 0 < i < v.nxstate && v.sorted[i] == q
    ensures forall k | 0 <= k < |v.sorted| :: v.sorted[k] < |v.rows| && (k > 0 ==> v.sorted[k] > 0)
  {
    hide TokenCount, NtCount, TableRow, Precedes;
    i := v.statenum[q];
    NotAutomaticEmitted(v.auto, v.sorted, v.statenum, v.nxstate, q);
    forall k | 0 < k < |v.sorted|
      ensures v.sorted[k] > 0
    {
      assert v.statenum[v.sorted[k]] == k && v.statenum[v.sorted[0]] == 0;
    }
  }

  lemma LastHasToken(v: Numbering, t: Tables, ofst: seq<int>, offsets: map<int, map<int, int>>)
    requires v.Ok() && Reported(v, t, ofst, offsets) && |t.shiftOfst| > 0
    ensures |t.shiftOfst| <= v.nxstate <= |v.sorted| && v.sorted[|t.shiftOfst| - 1] < |v.rows|
    ensures TokenCount(v.g, RowOf(v, |t.shiftOfst| - 1)) > 0
  {
    hide AllPlaced, Least, TableAnswers, TokenCount;
    var k := |t.shiftOfst| - 1;
    assert ofst[2 * k + 0] != NO_OFFSET;
    TokensPlaced(v, t, ofst, offsets, k);
  }

  lemma Later(b: Build, v: Numbering, q: nat, i: nat, k: nat)
    requires b.Ok() && b.g == Unguarded() && v.Ok() && v.g == b.g && v.rows == b.res && |b.res| == |b.states|
    requires 0 < i <= k < |v.sorted| == |v.rows| && v.sorted[i] == q && 0 < v.sorted[k] < |v.rows|
    requires TokenCount(b.g, b.res[q]) == 0 && NtCount(b.g, b.res[q]) == 1
    ensures TokenCount(v.g, RowOf(v, k)) == 0
  {
    hide Build.Ok, TokenCount, NtCount;
    if i < k {
      OrderOf(v, i, k);
      if NtCount(v.g, RowOf(v, k)) == 0 { NoActions(b, v.sorted[k]); }
    }
  }

  lemma OrderOf(v: Numbering, i: nat, k: nat)
    requires v.Ok() && 0 < i < k < |v.sorted| == |v.rows| && v.sorted[i] < |v.rows| && v.sorted[k] < |v.rows|
    ensures Precedes(v.g, v.rows, v.sorted[i], v.sorted[k])
  {
  }
}
