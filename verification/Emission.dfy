/** The packing part of `ReportTable`: the action tables of the emitted parser, and the two lookups
    the parser makes in them. */
module Emission {
  import opened Grammars
  import opened Items
  import opened Actions
  import opened MSort
  import opened ConfigLists
  import opened Conflicts
  import opened Machines
  import opened Compression
  import opened Resorting
  import opened ActTabs

  const NO_OFFSET: int := -2147483647

  // ---------------------------------------------------------------- the action sets

  /** The symbols of one kind of action set: tokens or nonterminals. */
  predicate OfKind(g: Grammar, isTkn: bool, x: int) {
    if isTkn then 0 <= x < g.nterminal else g.nterminal <= x < g.NSymbol()
  }

  predicate Chosen(g: Grammar, isTkn: bool, a: Action) {
    Live(a) && OfKind(g, isTkn, a.sp)
  }

  /** The transaction of a row: its live actions on symbols of one kind, coded. */
  function TxOf(g: Grammar, c: Codes, statenum: seq<nat>, row: seq<Action>, isTkn: bool): seq<LookaheadAction>
    requires forall a | a in row && a.typ == SHIFT :: a.x < |statenum|
  {
    if row == [] then []
    else
      var n := |row| - 1;
      TxOf(g, c, statenum, row[..n], isTkn) +
      if Chosen(g, isTkn, row[n]) then [LookaheadAction(row[n].sp, ComputeAction(c, statenum, row[n]))] else []
  }

  ghost predicate Shiftable(statenum: seq<nat>, row: seq<Action>) {
    forall a | a in row && a.typ == SHIFT :: a.x < |statenum|
  }

  lemma {:induction false} InTx(g: Grammar, c: Codes, statenum: seq<nat>, row: seq<Action>, isTkn: bool,
                                e: LookaheadAction)
    requires Shiftable(statenum, row)
    ensures e in TxOf(g, c, statenum, row, isTkn) <==>
            exists a :: a in row && Chosen(g, isTkn, a) && e == LookaheadAction(a.sp, ComputeAction(c, statenum, a))
  {
    if row != [] {
      var n := |row| - 1;
      InTx(g, c, statenum, row[..n], isTkn, e);
      assert row == row[..n] + [row[n]];
      assert row[n] in row;
    }
  }

  lemma NewLookahead(g: Grammar, c: Codes, statenum: seq<nat>, row: seq<Action>, isTkn: bool, i: nat)
    requires Shiftable(statenum, row) && OneLive(row) && i < |row| && Live(row[i])
    ensures forall e | e in TxOf(g, c, statenum, row[..i], isTkn) :: e.lookahead != row[i].sp
  {
    forall e | e in TxOf(g, c, statenum, row[..i], isTkn)
      ensures e.lookahead != row[i].sp
    {
      InTx(g, c, statenum, row[..i], isTkn, e);
      var a :| a in row[..i] && Chosen(g, isTkn, a) && e == LookaheadAction(a.sp, ComputeAction(c, statenum, a));
      var k :| 0 <= k < i && row[k] == a;
    }
  }

  lemma OneMoreEntry(tx: seq<LookaheadAction>, e: LookaheadAction)
    requires Transaction(tx) && e.lookahead >= 0 && forall d | d in tx :: d.lookahead != e.lookahead
    ensures Transaction(tx + [e])
  {
    assert forall j | 0 <= j < |tx| :: tx[j] in tx;
  }

  lemma {:induction false} TxIsTransaction(g: Grammar, c: Codes, statenum: seq<nat>, row: seq<Action>, isTkn: bool)
    requires Shiftable(statenum, row) && OneLive(row)
    ensures Transaction(TxOf(g, c, statenum, row, isTkn))
    ensures |TxOf(g, c, statenum, row, isTkn)| == if isTkn then TokenCount(g, row) else NtCount(g, row)
  {
    hide ComputeAction, Live;
    if row != [] {
      var n := |row| - 1;
      var init := TxOf(g, c, statenum, row[..n], isTkn);
      TxIsTransaction(g, c, statenum, row[..n], isTkn);
      if Chosen(g, isTkn, row[n]) {
        NewLookahead(g, c, statenum, row, isTkn, n);
        OneMoreEntry(init, LookaheadAction(row[n].sp, ComputeAction(c, statenum, row[n])));
      }
    }
  }

  /** As a map it is the row's lookup, on symbols of its kind. */
  lemma TxMap(g: Grammar, c: Codes, statenum: seq<nat>, row: seq<Action>, isTkn: bool, x: int)
    requires Shiftable(statenum, row) && OneLive(row)
    ensures var m := AsMap(TxOf(g, c, statenum, row, isTkn));
            && (x in m <==> x >= 0 && OfKind(g, isTkn, x) && LiveOn(row, x) != [])
            && (x in m ==> m[x] == ComputeAction(c, statenum, LiveOn(row, x)[0]))
  {
    var tx := TxOf(g, c, statenum, row, isTkn);
    TxIsTransaction(g, c, statenum, row, isTkn);
    AsMapEntries(tx);
    if x in AsMap(tx) {
      var j :| 0 <= j < |tx| && tx[j].lookahead == x;
      InTx(g, c, statenum, row, isTkn, tx[j]);
      var a :| a in row && Chosen(g, isTkn, a) && tx[j] == LookaheadAction(a.sp, ComputeAction(c, statenum, a));
      LiveOnUnique(row, a);
    }
    if x >= 0 && OfKind(g, isTkn, x) && LiveOn(row, x) != [] {
      var a := LiveOn(row, x)[0];
      var e := LookaheadAction(a.sp, ComputeAction(c, statenum, a));
      InTx(g, c, statenum, row, isTkn, e);
      var j :| 0 <= j < |tx| && tx[j] == e;
    }
  }

  /** One transaction: the actions of a row on symbols of one kind, then `acttab_insert`. */
  method InsertSet(tab: ActTab, g: Grammar, c: Codes, statenum: seq<nat>, row: seq<Action>, isTkn: bool)
    returns (offset: int)
    requires g.Valid() && tab.Valid() && tab.aLookahead == []
    requires Shiftable(statenum, row) && OneLive(row) && TxOf(g, c, statenum, row, isTkn) != []
    requires forall a | a in row && Live(a) :: a.sp <= g.NSymbol()
    modifies tab, tab.aAction
    ensures tab.Valid() && tab.aLookahead == [] && (tab.aAction == old(tab.aAction) || fresh(tab.aAction))
    ensures offset == old(tab.State().Offset(TxOf(g, c, statenum, row, isTkn)))
    ensures tab.State() == old(tab.State().Inserted(TxOf(g, c, statenum, row, isTkn)))
  {
    hide ActTab.Valid, Merged, AsMap, Packing.Offset, Packing.Inserted, Packing.Exhausted, Answers;
    TxIsTransaction(g, c, statenum, row, isTkn);
    for i := 0 to |row|
      invariant tab.Valid() && tab.aAction == old(tab.aAction) && tab.State() == old(tab.State())
      invariant tab.aLookahead == TxOf(g, c, statenum, row[..i], isTkn)
    {
      var a := row[i];
      assert a in row && row[..i + 1][..i] == row[..i];
      if (if isTkn then a.sp < g.nterminal else a.sp >= g.nterminal && a.sp != g.NSymbol()) {
        var action := ComputeAction(c, statenum, a);
        if action >= 0 {
          NewLookahead(g, c, statenum, row, isTkn, i);
          tab.AddAction(a.sp, action);
        }
      }
    }
    assert row[..|row|] == row;
    offset := tab.Insert();
  }

  // ---------------------------------------------------------------- the order of the sets

  /** Set 2i holds the token actions of the i-th state, set 2i + 1 its nonterminal actions. */
  function SizeOf(size: seq<nat>, k: nat): nat {
    if k < |size| then size[k] else 0
  }

  /** `axset_compare`: the largest set first. */
  function AxsetCompare(size: seq<nat>, a: nat, b: nat): int {
    if SizeOf(size, a) != SizeOf(size, b) then SizeOf(size, b) - SizeOf(size, a) else a - b
  }

  function AxsetOrder(size: seq<nat>): (nat, nat) -> int {
    (a: nat, b: nat) => AxsetCompare(size, a, b)
  }

  lemma AxsetOrderCompares(size: seq<nat>)
    ensures Comparison(AxsetOrder(size))
  {
  }

  /** By `qsort`; no two sets compare equal. */
  method SortSets(size: seq<nat>) returns (order: seq<nat>)
    ensures Distinct(order) && (forall i | 0 <= i < |order| :: order[i] < |size|)
    ensures forall k | 0 <= k < |size| :: k in order
    ensures forall i, j | 0 <= i < j < |order| :: AxsetCompare(size, order[i], order[j]) < 0
    ensures forall i, j | 0 <= i < j < |order| :: SizeOf(size, order[i]) >= SizeOf(size, order[j])
  {
    var all: seq<nat> := seq(|size|, i requires 0 <= i < |size| => i);
    AxsetOrderCompares(size);
    order := Qsort<nat>(all, AxsetOrder(size));
    SameElements(order, all);
    SameElements(all, order);
    DistinctPermutation(all, order);
    forall i | 0 <= i < |order|
      ensures order[i] < |size|
    {
      assert order[i] in all;
    }
    forall k | 0 <= k < |size|
      ensures k in order
    {
      assert all[k] in all;
    }
    forall i, j | 0 <= i < j < |order|
      ensures AxsetCompare(size, order[i], order[j]) < 0
    {
      assert AxsetOrder(size)(order[i], order[j]) <= 0;
    }
  }

  // ---------------------------------------------------------------- packing

  /** The states in their final order, with their rows. */
  datatype Numbering = Numbering(g: Grammar, rows: seq<seq<Action>>, auto: seq<bool>, dflt: seq<int>,
                                 sorted: seq<nat>, statenum: seq<nat>, nxstate: nat) {

    ghost predicate Ok() {
      && g.Valid()
      && TableRows(g, auto, dflt, rows)
      && Renumbered(|rows|, sorted, statenum)
      && InOrder(g, rows, sorted)
      && Trimmed(auto, sorted, nxstate)
      && g.NSymbol() < 0x7FFF_FFFF
    }

    function C(): Codes { Codes(nxstate, |rows|, |g.rules|) }

    ghost predicate Row_(i: nat) {
      && i < |sorted| && sorted[i] < |rows|
      && Shiftable(statenum, rows[sorted[i]])
    }

    /** The k-th action set. */
    ghost function Tx(k: nat): seq<LookaheadAction> {
      if Row_(k / 2) then TxOf(g, C(), statenum, rows[sorted[k / 2]], k % 2 == 0) else []
    }
  }

  lemma RowOk(v: Numbering, i: nat)
    requires v.Ok() && i < v.nxstate
    ensures v.Row_(i) && OneLive(v.rows[v.sorted[i]])
    ensures forall a | a in v.rows[v.sorted[i]] && Live(a) :: a.sp <= v.g.NSymbol()
  {
    var row := v.rows[v.sorted[i]];
    assert TableRow(v.g, v.auto, v.dflt, v.sorted[i], row);
    forall a | a in row && Live(a)
      ensures a.sp <= v.g.NSymbol() && (a.typ == SHIFT ==> a.x < |v.statenum|)
    {
      assert LiveIn(row, a);
    }
  }

  lemma SetSize(v: Numbering, k: nat)
    requires v.Ok() && k < 2 * v.nxstate
    ensures Transaction(v.Tx(k))
    ensures |v.Tx(k)| == if k % 2 == 0 then TokenCount(v.g, v.rows[v.sorted[k / 2]])
            else NtCount(v.g, v.rows[v.sorted[k / 2]])
  {
    RowOk(v, k / 2);
    TxIsTransaction(v.g, v.C(), v.statenum, v.rows[v.sorted[k / 2]], k % 2 == 0);
  }

  /** The sizes of the sets, as counted by `ResortStates`. */
  ghost predicate SizesOk(v: Numbering, size: seq<nat>) {
    |size| == 2 * v.nxstate && forall k | 0 <= k < |size| :: size[k] == |v.Tx(k)|
  }

  // ---------------------------------------------------------------- the sets in the table

  /** The table and the places of the sets that have been put into it. */
  datatype Placement = Placement(table: Packing, at: map<nat, int>)

  /** The order in which the sets are put in: strictly by `axset_compare`. */
  ghost predicate SetOrder(v: Numbering, order: seq<nat>) {
    && Distinct(order)
    && (forall k: nat :: k in order <==> k < 2 * v.nxstate)
    && forall i, j | 0 <= i < j < |order| :: SetCompare(v, order[i], order[j]) < 0
  }

  ghost function SetCompare(v: Numbering, a: nat, b: nat): int {
    if |v.Tx(a)| != |v.Tx(b)| then |v.Tx(b)| - |v.Tx(a)| else a - b
  }

  /** Only one order is sorted so. */
  lemma OrderUnique(v: Numbering, a: seq<nat>, b: seq<nat>)
    requires SetOrder(v, a) && SetOrder(v, b)
    ensures a == b
  {
    hide Numbering.Tx;
    if |a| <= |b| {
      OrderPrefix(v, a, b, |a|);
      NoneLeft(v, a, b);
    } else {
      OrderPrefix(v, b, a, |b|);
      NoneLeft(v, b, a);
    }
    assert a[..|a|] == a && b[..|b|] == b;
  }

  lemma NoneLeft(v: Numbering, a: seq<nat>, b: seq<nat>)
    requires SetOrder(v, a) && SetOrder(v, b) && |a| <= |b| && a[..|a|] == b[..|a|]
    ensures |a| == |b|
  {
    hide SetCompare;
    assert forall i | 0 <= i < |a| :: a[..|a|][i] == b[..|a|][i];
    if |a| < |b| { SameSets(v, a, b, b[|a|]); }
  }

  lemma SameSets(v: Numbering, a: seq<nat>, b: seq<nat>, k: nat)
    requires SetOrder(v, a) && SetOrder(v, b)
    ensures k in a <==> k in b
  {
  }

  lemma {:induction false} OrderPrefix(v: Numbering, a: seq<nat>, b: seq<nat>, n: nat)
    requires SetOrder(v, a) && SetOrder(v, b) && n <= |a| && n <= |b|
    ensures a[..n] == b[..n]
  {
    hide Numbering.Tx;
    if n > 0 {
      OrderPrefix(v, a, b, n - 1);
      LaterOf(v, a, b, n - 1);
      LaterOf(v, b, a, n - 1);
      assert a[..n] == a[..n - 1] + [a[n - 1]] && b[..n] == b[..n - 1] + [b[n - 1]];
    }
  }

  lemma LaterOf(v: Numbering, a: seq<nat>, b: seq<nat>, n: nat)
    requires SetOrder(v, a) && SetOrder(v, b) && n < |a| && n < |b| && a[..n] == b[..n]
    ensures a[n] == b[n] || SetCompare(v, a[n], b[n]) < 0
  {
    hide SetCompare;
    assert forall h | 0 <= h < n :: a[..n][h] == b[..n][h];
    assert b[n] in b && b[n] in a;
    var j :| 0 <= j < |a| && a[j] == b[n];
  }

  /** Set k is put in, if it is not empty. */
  ghost function Put(v: Numbering, p: Placement, k: nat): Placement {
    var tx := v.Tx(k);
    if tx == [] || !p.table.Ok() then p else Placement(p.table.Inserted(tx), p.at[k := p.table.Offset(tx)])
  }

  /** The first i sets are in the table. */
  ghost function PlacedUpTo(v: Numbering, order: seq<nat>, i: nat): Placement
    requires i <= |order|
  {
    if i == 0 then Placement(Packing([], 0, map[]), map[]) else Put(v, PlacedUpTo(v, order, i - 1), order[i - 1])
  }

  /** The table is packed, every set is found at its place, and an offset answers for the union of
      the sets placed there. */
  ghost predicate Placing(v: Numbering, p: Placement) {
    && p.table.Ok()
    && (forall k | k in p.at :: k < 2 * v.nxstate && v.Tx(k) != [] && HasPlace(v.Tx(k), p.at[k], p.table.offsets))
    && (forall o, l | o in p.table.offsets && l in p.table.offsets[o] :: Sourced(v, p.at, o, l))
  }

  ghost predicate HasPlace(tx: seq<LookaheadAction>, o: int, offsets: map<int, map<int, int>>) {
    && o in offsets
    && forall l | l in AsMap(tx) :: l in offsets[o] && offsets[o][l] == AsMap(tx)[l]
  }

  ghost predicate Sourced(v: Numbering, at: map<nat, int>, o: int, l: int) {
    exists k :: k in at && at[k] == o && l in AsMap(v.Tx(k))
  }

  /** What inserting set k does to the offsets. */
  ghost predicate Merges(p: Placement, tx: seq<LookaheadAction>) {
    tx != [] && p.table.Ok() && p.table.n <= |p.table.tab| &&
    var o, q := p.table.Offset(tx), p.table.Inserted(tx);
    && q.Ok() && q.offsets == Merged(p.table.offsets, o, AsMap(tx))
    && (o in p.table.offsets ==>
          if p.table.Exhausted(tx) then p.table.offsets[o].Keys !! AsMap(tx).Keys
          else p.table.offsets[o] == AsMap(tx))
  }

  lemma PutMerges(v: Numbering, p: Placement, k: nat)
    requires v.Ok() && p.table.Ok() && k < 2 * v.nxstate && v.Tx(k) != []
    ensures Merges(p, v.Tx(k))
  {
    hide Numbering.Ok, Numbering.Tx, Packed, Packing.Ok, Packing.Exhausted, Packing.Offset, AsMap, Merged;
    SetSize(v, k);
    Used(p.table);
    InsertedOk(p.table, v.Tx(k));
    PlacedParts(p.table, v.Tx(k));
  }

  lemma PutOk(v: Numbering, p: Placement, k: nat)
    requires v.Ok() && Placing(v, p) && k < 2 * v.nxstate && k !in p.at
    ensures Placing(v, Put(v, p, k))
    ensures Put(v, p, k).at.Keys == if v.Tx(k) == [] then p.at.Keys else p.at.Keys + {k}
  {
    hide Numbering.Ok, Numbering.Tx, Packing.Ok, Packing.Exhausted, Packing.Offset, Packing.Inserted, AsMap;
    if v.Tx(k) != [] {
      PutMerges(v, p, k);
      MergeKeeps(v, p, k);
    }
  }

  lemma MergeKeeps(v: Numbering, p: Placement, k: nat)
    requires Placing(v, p) && k < 2 * v.nxstate && k !in p.at && v.Tx(k) != [] && Merges(p, v.Tx(k))
    ensures Placing(v, Put(v, p, k))
  {
    hide Numbering.Tx, Packing.Ok, Packing.Exhausted, Packing.Offset, Packing.Inserted, AsMap;
    var q, o, tx := Put(v, p, k), p.table.Offset(v.Tx(k)), v.Tx(k);
    forall j | j in q.at
      ensures j < 2 * v.nxstate && v.Tx(j) != [] && HasPlace(v.Tx(j), q.at[j], q.table.offsets)
    {
      if j != k { assert HasPlace(v.Tx(j), p.at[j], p.table.offsets); }
    }
    forall o', l | o' in q.table.offsets && l in q.table.offsets[o']
      ensures Sourced(v, q.at, o', l)
    {
      if o' == o && l in AsMap(tx) {
        assert k in q.at && q.at[k] == o';
      } else {
        assert Sourced(v, p.at, o', l);
        var j :| j in p.at && p.at[j] == o' && l in AsMap(v.Tx(j));
        assert j in q.at && q.at[j] == o';
      }
    }
  }

  lemma {:induction false} PlacedOk(v: Numbering, order: seq<nat>, i: nat)
    requires v.Ok() && SetOrder(v, order) && i <= |order|
    ensures Placing(v, PlacedUpTo(v, order, i))
    ensures forall k :: k in PlacedUpTo(v, order, i).at <==> k in order[..i] && v.Tx(k) != []
  {
    hide Numbering.Ok, Numbering.Tx, Put, Placing, SetCompare;
    if i == 0 {
      NothingPlaced(v);
    } else {
      PlacedOk(v, order, i - 1);
      assert order[..i] == order[..i - 1] + [order[i - 1]] && order[i - 1] in order;
      PutOk(v, PlacedUpTo(v, order, i - 1), order[i - 1]);
    }
  }

  lemma NothingPlaced(v: Numbering)
    ensures Placing(v, Placement(Packing([], 0, map[]), map[]))
  {
  }

  /** The offsets as recorded in the states. */
  ghost predicate OffsetsAre(ofst: seq<int>, at: map<nat, int>) {
    forall k | 0 <= k < |ofst| :: ofst[k] == if k in at then at[k] else NO_OFFSET
  }

  /** All sets that are not empty have been put in, in order. */
  ghost predicate AllPlaced(v: Numbering, ofst: seq<int>, offsets: map<int, map<int, int>>) {
    exists order :: SetOrder(v, order) && PlacedAs(v, order, ofst, offsets)
  }

  ghost predicate PlacedAs(v: Numbering, order: seq<nat>, ofst: seq<int>, offsets: map<int, map<int, int>>) {
    var p := PlacedUpTo(v, order, |order|);
    |ofst| == 2 * v.nxstate && offsets == p.table.offsets && OffsetsAre(ofst, p.at)
  }

  /** What the table answers once all sets are placed. */
  lemma AllPlacing(v: Numbering, ofst: seq<int>, offsets: map<int, map<int, int>>) returns (p: Placement)
    requires v.Ok() && AllPlaced(v, ofst, offsets)
    ensures Placing(v, p) && offsets == p.table.offsets && OffsetsAre(ofst, p.at) && |ofst| == 2 * v.nxstate
    ensures forall k: nat :: k in p.at <==> k < 2 * v.nxstate && v.Tx(k) != []
  {
    hide Numbering.Ok, Numbering.Tx, Placing, SetCompare, OffsetsAre;
    var order :| SetOrder(v, order) && PlacedAs(v, order, ofst, offsets);
    p := PlacedUpTo(v, order, |order|);
    PlacedOk(v, order, |order|);
    assert order[..|order|] == order;
  }

  /** A lower bound of the offsets of one kind of sets, and 0. */
  ghost predicate Least(ofst: seq<int>, kind: nat, mn: int) {
    mn <= 0 && forall k | 0 <= k < |ofst| && k % 2 == kind && ofst[k] != NO_OFFSET :: mn <= ofst[k]
  }

  method PackActions(v: Numbering, size: seq<nat>) returns (tab: ActTab, ofst: seq<int>, mnTknOfst: int, mnNtOfst: int)
    requires v.Ok() && SizesOk(v, size)
    ensures fresh(tab) && fresh(tab.aAction) && tab.Valid() && tab.nAction <= tab.aAction.Length
    ensures |ofst| == 2 * v.nxstate && AllPlaced(v, ofst, tab.offsets)
    ensures Least(ofst, 0, mnTknOfst) && Least(ofst, 1, mnNtOfst)
  {
    hide *;
    SizesKnown(v, size);
    LeastStart(|size|);
    var order := SortSets(size);
    OrderedSets(v, size, order);
    tab := new ActTab();
    ofst := seq(|size|, k requires 0 <= k < |size| => NO_OFFSET);
    mnTknOfst, mnNtOfst := 0, 0;
    NoOffsets(v, order, ofst, tab);
    var i := 0;
    while i < |order| && size[order[i]] > 0
      invariant 0 <= i <= |order| && |ofst| == |size|
      invariant fresh(tab) && fresh(tab.aAction) && tab.Valid() && tab.aLookahead == []
      invariant PlacedSoFar(v, order, i, tab.State(), ofst)
      invariant Least(ofst, 0, mnTknOfst) && Least(ofst, 1, mnNtOfst)
      decreases |order| - i
    {
      var k := order[i];
      var o := PlaceSet(v, tab, ofst, size, order, i);
      LeastNext(ofst, k, o, mnTknOfst, mnNtOfst);
      ofst := ofst[k := o];
      if k % 2 == 0 {
        if o < mnTknOfst { mnTknOfst := o; }
      } else {
        if o < mnNtOfst { mnNtOfst := o; }
      }
      i := i + 1;
    }
    AllDone(v, size, order, i);
    PlacedAll(v, order, i, tab, ofst);
    Bounded(tab);
  }

  /** The table and the offsets found are those of the first i sets. */
  ghost predicate PlacedSoFar(v: Numbering, order: seq<nat>, i: nat, table: Packing, ofst: seq<int>) {
    && SetOrder(v, order) && i <= |order|
    && table == PlacedUpTo(v, order, i).table && OffsetsAre(ofst, PlacedUpTo(v, order, i).at)
  }

  /** The next set goes into the table. */
  method PlaceSet(v: Numbering, tab: ActTab, ghost ofst: seq<int>, size: seq<nat>, order: seq<nat>, i: nat)
    returns (o: int)
    requires v.Ok() && SizesOk(v, size) && i < |order| && order[i] < |size| == |ofst| && size[order[i]] > 0
    requires tab.Valid() && tab.aLookahead == [] && PlacedSoFar(v, order, i, tab.State(), ofst)
    modifies tab, tab.aAction
    ensures tab.Valid() && tab.aLookahead == [] && (tab.aAction == old(tab.aAction) || fresh(tab.aAction))
    ensures PlacedSoFar(v, order, i + 1, tab.State(), ofst[order[i] := o])
  {
    hide *;
    var k := order[i];
    SizesKnown(v, size);
    SetSize(v, k);
    RowOk(v, k / 2);
    Indexable(v, k);
    ghost var was := tab.State();
    o := InsertSet(tab, v.g, v.C(), v.statenum, v.rows[v.sorted[k / 2]], k % 2 == 0);
    PlacedNext(v, order, i, was, ofst, size);
  }

  lemma PlacedNext(v: Numbering, order: seq<nat>, i: nat, was: Packing, ofst: seq<int>, size: seq<nat>)
    requires v.Ok() && SizesOk(v, size) && i < |order| && order[i] < |size| == |ofst| && size[order[i]] > 0
    requires PlacedSoFar(v, order, i, was, ofst)
    ensures v.Tx(order[i]) != [] && was.n <= |was.tab|
    ensures var tx := v.Tx(order[i]);
            PlacedSoFar(v, order, i + 1, was.Inserted(tx), ofst[order[i] := was.Offset(tx)])
  {
    hide Numbering.Ok, Numbering.Tx, SetOrder, Packing.Offset, Packing.Inserted, Placing, Packing.Ok;
    PlacedOk(v, order, i);
    PlacingTable(v, PlacedUpTo(v, order, i));
  }

  lemma PlacingTable(v: Numbering, p: Placement)
    requires Placing(v, p)
    ensures p.table.Ok() && p.table.n <= |p.table.tab|
  {
    Used(p.table);
  }

  lemma OrderedSets(v: Numbering, size: seq<nat>, order: seq<nat>)
    requires SizesOk(v, size) && Distinct(order) && forall i | 0 <= i < |order| :: order[i] < |size|
    requires forall k | 0 <= k < |size| :: k in order
    requires forall i, j | 0 <= i < j < |order| :: AxsetCompare(size, order[i], order[j]) < 0
    ensures SetOrder(v, order)
  {
    hide Numbering.Tx;
    forall i, j | 0 <= i < j < |order|
      ensures SetCompare(v, order[i], order[j]) < 0
    {
      assert AxsetCompare(size, order[i], order[j]) < 0;
    }
  }

  lemma Indexable(v: Numbering, k: nat)
    requires v.Ok() && k < 2 * v.nxstate
    ensures v.g.Valid() && k / 2 < |v.sorted| && v.sorted[k / 2] < |v.rows|
    ensures v.Row_(k / 2) ==>
              Shiftable(v.statenum, v.rows[v.sorted[k / 2]])
              && v.Tx(k) == TxOf(v.g, v.C(), v.statenum, v.rows[v.sorted[k / 2]], k % 2 == 0)
  {
  }

  lemma SizesKnown(v: Numbering, size: seq<nat>)
    requires SizesOk(v, size)
    ensures |size| == 2 * v.nxstate && forall k | 0 <= k < |size| :: size[k] == |v.Tx(k)|
  {
  }

  lemma LeastStart(n: nat)
    ensures var ofst := seq(n, k requires 0 <= k < n => NO_OFFSET); Least(ofst, 0, 0) && Least(ofst, 1, 0)
  {
  }

  lemma LeastNext(ofst: seq<int>, k: nat, o: int, mnTkn: int, mnNt: int)
    requires k < |ofst| && Least(ofst, 0, mnTkn) && Least(ofst, 1, mnNt)
    ensures Least(ofst[k := o], 0, if k % 2 == 0 && o < mnTkn then o else mnTkn)
    ensures Least(ofst[k := o], 1, if k % 2 == 1 && o < mnNt then o else mnNt)
  {
  }

  lemma NoOffsets(v: Numbering, order: seq<nat>, ofst: seq<int>, tab: ActTab)
    requires SetOrder(v, order) && forall k | 0 <= k < |ofst| :: ofst[k] == NO_OFFSET
    requires tab.aAction[..] == [] && tab.nAction == 0 && tab.offsets == map[]
    ensures PlacedSoFar(v, order, 0, tab.State(), ofst)
  {
    hide SetOrder;
  }

  /** Behind the first empty set all are empty. */
  lemma AllDone(v: Numbering, size: seq<nat>, order: seq<nat>, i: nat)
    requires SizesOk(v, size) && SetOrder(v, order) && i <= |order|
    requires forall j | 0 <= j < |order| :: order[j] < |size|
    requires i < |order| ==> size[order[i]] == 0
    ensures forall j | i <= j < |order| :: v.Tx(order[j]) == []
  {
    hide Numbering.Tx;
    forall j | i <= j < |order|
      ensures v.Tx(order[j]) == []
    {
      assert i < j ==> SetCompare(v, order[i], order[j]) < 0;
    }
  }

  lemma PlacedAll(v: Numbering, order: seq<nat>, i: nat, tab: ActTab, ofst: seq<int>)
    requires PlacedSoFar(v, order, i, tab.State(), ofst) && |ofst| == 2 * v.nxstate
    requires forall j | i <= j < |order| :: v.Tx(order[j]) == []
    ensures AllPlaced(v, ofst, tab.offsets)
  {
    hide Numbering.Tx, SetOrder, OffsetsAre;
    RestEmpty(v, order, i, |order|);
    assert PlacedAs(v, order, ofst, tab.offsets);
  }

  lemma {:induction false} RestEmpty(v: Numbering, order: seq<nat>, i: nat, n: nat)
    requires i <= n <= |order| && forall j | i <= j < |order| :: v.Tx(order[j]) == []
    ensures PlacedUpTo(v, order, n) == PlacedUpTo(v, order, i)
  {
    hide Numbering.Tx;
    if i < n { RestEmpty(v, order, i, n - 1); }
  }

  lemma Bounded(tab: ActTab)
    requires tab.Valid()
    ensures tab.nAction <= tab.aAction.Length
  {
  }

  // ---------------------------------------------------------------- the emitted tables

  /** yy_action, yy_lookahead, yy_shift_ofst, yy_reduce_ofst and yy_default, with the codes and the
      two USE_DFLT values.  YY_SHIFT_COUNT is |shiftOfst| - 1, YY_REDUCE_COUNT |reduceOfst| - 1. */
  datatype Tables = Tables(c: Codes, action: seq<int>, lookahead: seq<int>, shiftOfst: seq<int>, shiftUseDflt: int,
                           reduceOfst: seq<int>, reduceUseDflt: int, dflt: seq<int>)

  /** The slots at offset o answer for exactly the lookaheads of m below nsymbol. */
  ghost predicate TableAnswers(t: Tables, nsymbol: nat, o: int, m: map<int, int>) {
    && |t.action| == |t.lookahead|
    && forall l | 0 <= l < nsymbol ::
         && (l in m <==> 0 <= o + l < |t.lookahead| && t.lookahead[o + l] == l)
         && (l in m ==> t.action[o + l] == m[l])
  }

  /** One of the two offset tables: cut behind the last state that has such a set. */
  ghost predicate OffsetTable(ofst: seq<int>, nxstate: nat, kind: nat, mn: int, res: seq<int>)
    requires |ofst| == 2 * nxstate && kind < 2
  {
    && |res| <= nxstate
    && (forall i | 0 <= i < |res| :: res[i] == if ofst[2 * i + kind] == NO_OFFSET then mn - 1 else ofst[2 * i + kind])
    && (forall i | |res| <= i < nxstate :: ofst[2 * i + kind] == NO_OFFSET)
    && (|res| > 0 ==> ofst[2 * (|res| - 1) + kind] != NO_OFFSET)
  }

  method EmitOffsets(ofst: seq<int>, nxstate: nat, kind: nat, mn: int) returns (res: seq<int>)
    requires |ofst| == 2 * nxstate && kind < 2
    ensures OffsetTable(ofst, nxstate, kind, mn, res)
  {
    var n := nxstate;
    while n > 0 && ofst[2 * (n - 1) + kind] == NO_OFFSET
      invariant 0 <= n <= nxstate
      invariant forall i | n <= i < nxstate :: ofst[2 * i + kind] == NO_OFFSET
    {
      n := n - 1;
    }
    res := [];
    for i := 0 to n
      invariant |res| == i
      invariant forall j | 0 <= j < i ::
                res[j] == if ofst[2 * j + kind] == NO_OFFSET then mn - 1 else ofst[2 * j + kind]
    {
      var o := ofst[2 * i + kind];
      res := res + [if o == NO_OFFSET then mn - 1 else o];
    }
  }

  /** yy_action and yy_lookahead: unused slots get an action and a lookahead that nothing has. */
  method EmitSlots(tab: ActTab, c: Codes, nsymbol: nat) returns (action: seq<int>, lookahead: seq<int>)
    requires tab.nAction <= tab.aAction.Length
    ensures |action| == |lookahead| == tab.nAction
    ensures forall i | 0 <= i < tab.nAction ::
              && action[i] == (if tab.aAction[i].action < 0 then c.nstate + c.nrule + 2 else tab.aAction[i].action)
              && lookahead[i] == (if tab.aAction[i].lookahead < 0 then nsymbol else tab.aAction[i].lookahead)
  {
    action, lookahead := [], [];
    for i := 0 to tab.nAction
      invariant |action| == |lookahead| == i
      invariant forall j | 0 <= j < i ::
              && action[j] == (if tab.aAction[j].action < 0 then c.nstate + c.nrule + 2 else tab.aAction[j].action)
              && lookahead[j] == (if tab.aAction[j].lookahead < 0 then nsymbol else tab.aAction[j].lookahead)
    {
      var a := if tab.aAction[i].action < 0 then c.nstate + c.nrule + 2 else tab.aAction[i].action;
      var la := if tab.aAction[i].lookahead < 0 then nsymbol else tab.aAction[i].lookahead;
      action, lookahead := action + [a], lookahead + [la];
    }
  }

  /** What `ReportTable` emits for the numbered states. */
  ghost predicate Reported(v: Numbering, t: Tables, ofst: seq<int>, offsets: map<int, map<int, int>>) {
    && t.c == v.C()
    && |ofst| == 2 * v.nxstate && AllPlaced(v, ofst, offsets)
    && (forall o | o in offsets :: TableAnswers(t, v.g.NSymbol(), o, offsets[o]))
    && Least(ofst, 0, t.shiftUseDflt + 1) && Least(ofst, 1, t.reduceUseDflt + 1)
    && OffsetTable(ofst, v.nxstate, 0, t.shiftUseDflt + 1, t.shiftOfst)
    && OffsetTable(ofst, v.nxstate, 1, t.reduceUseDflt + 1, t.reduceOfst)
    && |t.dflt| == v.nxstate <= |v.sorted|
    && forall i | 0 <= i < v.nxstate ::
         v.sorted[i] < |v.rows| && t.dflt[i] == DefaultRule(v.g, v.rows[v.sorted[i]]) + v.C().MinReduce()
  }

  /** An entry of the table is the coded action of some row. */
  lemma EntryIsAction(v: Numbering, ofst: seq<int>, offsets: map<int, map<int, int>>, o: int, l: int) returns (k: nat)
    requires v.Ok() && AllPlaced(v, ofst, offsets) && o in offsets && l in offsets[o]
    ensures k < 2 * v.nxstate && v.Tx(k) != [] && |ofst| == 2 * v.nxstate && ofst[k] == o
    ensures l in AsMap(v.Tx(k)) && offsets[o][l] == AsMap(v.Tx(k))[l] >= 0
  {
    hide Numbering.Ok, Numbering.Tx, AllPlaced, Packing.Ok;
    var p := AllPlacing(v, ofst, offsets);
    assert Sourced(v, p.at, o, l);
    k :| k in p.at && p.at[k] == o && l in AsMap(v.Tx(k));
    assert HasPlace(v.Tx(k), p.at[k], offsets);
    CodesNonNegative(v, k, l);
  }

  lemma CodesNonNegative(v: Numbering, k: nat, l: int)
    requires v.Ok() && k < 2 * v.nxstate && l in AsMap(v.Tx(k))
    ensures AsMap(v.Tx(k))[l] >= 0
  {
    RowOk(v, k / 2);
    Indexable(v, k);
    var row := v.rows[v.sorted[k / 2]];
    TxMap(v.g, v.C(), v.statenum, row, k % 2 == 0, l);
    assert LiveOn(row, l)[0] in row;
  }

  /** Emitting the slots keeps every offset's answers. */
  lemma SlotsAnswer(v: Numbering, ofst: seq<int>, tab: seq<LookaheadAction>, n: nat, offsets: map<int, map<int, int>>,
                    t: Tables, o: int)
    requires v.Ok() && AllPlaced(v, ofst, offsets) && Packed(tab, n, offsets) && o in offsets
    requires |t.action| == |t.lookahead| == n <= |tab|
    requires forall i | 0 <= i < n ::
              && t.action[i] == (if tab[i].action < 0 then v.C().NoAction() - v.C().nrule else tab[i].action)
              && t.lookahead[i] == (if tab[i].lookahead < 0 then v.g.NSymbol() else tab[i].lookahead)
    ensures TableAnswers(t, v.g.NSymbol(), o, offsets[o])
  {
    hide Numbering.Ok, AllPlaced, Packed, Answers;
    PackedAnswers(tab, n, offsets, o);
    forall l | 0 <= l < v.g.NSymbol()
      ensures l in offsets[o] <==> 0 <= o + l < |t.lookahead| && t.lookahead[o + l] == l
      ensures l in offsets[o] ==> t.action[o + l] == offsets[o][l]
    {
      AnswerAt(tab, n, o, offsets[o], l);
      if l in offsets[o] { var k := EntryIsAction(v, ofst, offsets, o, l); }
    }
  }

  lemma AnswerAt(tab: seq<LookaheadAction>, n: nat, o: int, m: map<int, int>, l: int)
    requires n <= |tab| && Answers(tab, n, o, m) && l >= 0
    ensures (0 <= o + l < n && tab[o + l].lookahead == l) <==> l in m
    ensures l in m ==> tab[o + l].action == m[l]
  {
    assert Hits(tab, n, o, l) <==> l in m;
  }

  method EmitDefaults(v: Numbering, iDfltReduce: seq<nat>) returns (dflt: seq<int>)
    requires v.Ok() && |iDfltReduce| == |v.rows| && forall s | 0 <= s < |v.rows| ::
             iDfltReduce[s] == DefaultRule(v.g, v.rows[s])
    ensures |dflt| == v.nxstate <= |v.sorted|
    ensures forall i | 0 <= i < v.nxstate ::
              v.sorted[i] < |v.rows| && dflt[i] == DefaultRule(v.g, v.rows[v.sorted[i]]) + v.C().MinReduce()
  {
    dflt := [];
    for i := 0 to v.nxstate
      invariant |dflt| == i
      invariant forall j | 0 <= j < i :: dflt[j] == DefaultRule(v.g, v.rows[v.sorted[j]]) + v.C().MinReduce()
    {
      dflt := dflt + [iDfltReduce[v.sorted[i]] + |v.rows| + |v.g.rules|];
    }
  }

  ghost predicate Counted(v: Numbering, nTknAct: seq<nat>, nNtAct: seq<nat>, iDfltReduce: seq<nat>) {
    && |nTknAct| == |nNtAct| == |iDfltReduce| == |v.rows|
    && forall s | 0 <= s < |v.rows| ::
         nTknAct[s] == TokenCount(v.g, v.rows[s]) && nNtAct[s] == NtCount(v.g, v.rows[s])
           && iDfltReduce[s] == DefaultRule(v.g, v.rows[s])
  }

  /** The sizes of the action sets. */
  method SetSizes(v: Numbering, nTknAct: seq<nat>, nNtAct: seq<nat>, ghost iDfltReduce: seq<nat>)
    returns (size: seq<nat>)
    requires v.Ok() && Counted(v, nTknAct, nNtAct, iDfltReduce)
    ensures SizesOk(v, size)
  {
    hide Numbering.Ok, Numbering.Tx, TokenCount, NtCount;
    size := [];
    for i := 0 to v.nxstate
      invariant |size| == 2 * i
      invariant forall k | 0 <= k < 2 * i :: size[k] == |v.Tx(k)|
    {
      SetSize(v, 2 * i);
      SetSize(v, 2 * i + 1);
      Indexable(v, 2 * i);
      size := size + [nTknAct[v.sorted[i]], nNtAct[v.sorted[i]]];
    }
  }

  /** The tables for a packed table and the offsets of the sets. */
  method EmitTables(v: Numbering, tab: ActTab, ofst: seq<int>, mnTknOfst: int, mnNtOfst: int, iDfltReduce: seq<nat>)
    returns (t: Tables)
    requires v.Ok() && tab.Valid() && tab.nAction <= tab.aAction.Length
    requires |ofst| == 2 * v.nxstate && AllPlaced(v, ofst, tab.offsets) && Least(ofst, 0, mnTknOfst)
    requires Least(ofst, 1, mnNtOfst)
    requires |iDfltReduce| == |v.rows| && forall s | 0 <= s < |v.rows| :: iDfltReduce[s] == DefaultRule(v.g, v.rows[s])
    ensures Reported(v, t, ofst, tab.offsets)
  {
    hide AllPlaced, Packed, Least, OffsetTable, TableAnswers, Numbering.Ok, Reported, DefaultRule;
    var action, lookahead := EmitSlots(tab, v.C(), v.g.NSymbol());
    var shiftOfst := EmitOffsets(ofst, v.nxstate, 0, mnTknOfst);
    var reduceOfst := EmitOffsets(ofst, v.nxstate, 1, mnNtOfst);
    var dflt := EmitDefaults(v, iDfltReduce);
    t := Tables(v.C(), action, lookahead, shiftOfst, mnTknOfst - 1, reduceOfst, mnNtOfst - 1, dflt);
    AllAnswer(v, ofst, tab.aAction[..], tab.nAction, tab.offsets, t);
    ReportedFrom(v, t, ofst, tab.offsets);
  }

  method ReportTables(v: Numbering, nTknAct: seq<nat>, nNtAct: seq<nat>, iDfltReduce: seq<nat>)
    returns (t: Tables, ghost ofst: seq<int>, ghost offsets: map<int, map<int, int>>)
    requires v.Ok() && Counted(v, nTknAct, nNtAct, iDfltReduce)
    ensures Reported(v, t, ofst, offsets)
    ensures HitsExact(v, t) <==> !Clash(v)
  {
    hide *;
    CountedParts(v, nTknAct, nNtAct, iDfltReduce);
    var size := SetSizes(v, nTknAct, nNtAct, iDfltReduce);
    SizesKnown(v, size);
    var tab, places, mnTkn, mnNt := PackActions(v, size);
    ofst, offsets := places, tab.offsets;
    t := EmitTables(v, tab, places, mnTkn, mnNt, iDfltReduce);
    HitsExactIffNoClash(v, t, ofst, offsets);
  }

  lemma CountedParts(v: Numbering, nTknAct: seq<nat>, nNtAct: seq<nat>, iDfltReduce: seq<nat>)
    requires Counted(v, nTknAct, nNtAct, iDfltReduce)
    ensures |iDfltReduce| == |v.rows| && forall s | 0 <= s < |v.rows| :: iDfltReduce[s] == DefaultRule(v.g, v.rows[s])
  {
  }

  lemma AllAnswer(v: Numbering, ofst: seq<int>, tab: seq<LookaheadAction>, n: nat, offsets: map<int, map<int, int>>,
                  t: Tables)
    requires v.Ok() && AllPlaced(v, ofst, offsets) && Packed(tab, n, offsets)
    requires |t.action| == |t.lookahead| == n <= |tab|
    requires forall i | 0 <= i < n ::
              && t.action[i] == (if tab[i].action < 0 then v.C().NoAction() - v.C().nrule else tab[i].action)
              && t.lookahead[i] == (if tab[i].lookahead < 0 then v.g.NSymbol() else tab[i].lookahead)
    ensures forall o | o in offsets :: TableAnswers(t, v.g.NSymbol(), o, offsets[o])
  {
    hide AllPlaced, Packed, TableAnswers, Numbering.Ok;
    forall o | o in offsets
      ensures TableAnswers(t, v.g.NSymbol(), o, offsets[o])
    {
      SlotsAnswer(v, ofst, tab, n, offsets, t, o);
    }
  }

  lemma ReportedFrom(v: Numbering, t: Tables, ofst: seq<int>, offsets: map<int, map<int, int>>)
    requires t.c == v.C() && |ofst| == 2 * v.nxstate && AllPlaced(v, ofst, offsets)
    requires forall o | o in offsets :: TableAnswers(t, v.g.NSymbol(), o, offsets[o])
    requires Least(ofst, 0, t.shiftUseDflt + 1) && Least(ofst, 1, t.reduceUseDflt + 1)
    requires OffsetTable(ofst, v.nxstate, 0, t.shiftUseDflt + 1, t.shiftOfst)
    requires OffsetTable(ofst, v.nxstate, 1, t.reduceUseDflt + 1, t.reduceOfst)
    requires |t.dflt| == v.nxstate <= |v.sorted|
    requires forall i | 0 <= i < v.nxstate ::
               v.sorted[i] < |v.rows| && t.dflt[i] == DefaultRule(v.g, v.rows[v.sorted[i]]) + v.C().MinReduce()
    ensures Reported(v, t, ofst, offsets)
  {
    hide AllPlaced, Least, OffsetTable, TableAnswers, DefaultRule;
  }

  // ---------------------------------------------------------------- the lookups

  /** `yy_find_shift_action`: the code for a token on top of the given stack entry.  Its assertion
      that the state is no greater than YY_SHIFT_COUNT is the precondition. */
  function FindShiftAction(t: Tables, stateno: nat, iLookAhead: nat): int
    requires |t.action| == |t.lookahead|
    requires stateno < t.c.MinReduce() ==> stateno < |t.shiftOfst| && stateno < |t.dflt|
  {
    if stateno >= t.c.MinReduce() then stateno
    else if t.shiftOfst[stateno] == t.shiftUseDflt then t.dflt[stateno]
    else
      var i := t.shiftOfst[stateno] + iLookAhead;
      if i < 0 || i >= |t.lookahead| || t.lookahead[i] != iLookAhead then t.dflt[stateno] else t.action[i]
  }

  /** What `yy_find_reduce_action` asserts about its arguments. */
  predicate ReduceDefined(t: Tables, stateno: nat, iLookAhead: nat) {
    && stateno < |t.reduceOfst| && t.reduceOfst[stateno] != t.reduceUseDflt
    && var i := t.reduceOfst[stateno] + iLookAhead;
       0 <= i < |t.lookahead| && i < |t.action| && t.lookahead[i] == iLookAhead
  }

  function FindReduceAction(t: Tables, stateno: nat, iLookAhead: nat): int
    requires ReduceDefined(t, stateno, iLookAhead)
  {
    t.action[t.reduceOfst[stateno] + iLookAhead]
  }

  /** States that share a token offset have the same token actions. */
  ghost predicate Apart(v: Numbering, t: Tables) {
    forall i, j | 0 <= i < |t.shiftOfst| && 0 <= j < |t.shiftOfst|
      && t.shiftOfst[i] == t.shiftOfst[j] != t.shiftUseDflt ::
      AsMap(v.Tx(2 * i)) == AsMap(v.Tx(2 * j))
  }

  /** Where set k is, if it is not empty. */
  lemma WherePlaced(v: Numbering, t: Tables, ofst: seq<int>, offsets: map<int, map<int, int>>, k: nat)
    requires v.Ok() && Reported(v, t, ofst, offsets) && k < 2 * v.nxstate
    ensures v.Tx(k) == [] ==> ofst[k] == NO_OFFSET
    ensures v.Tx(k) != [] ==> ofst[k] in offsets && HasPlace(v.Tx(k), ofst[k], offsets)
  {
    hide Numbering.Ok, Numbering.Tx, AllPlaced, Packing.Ok;
    var p := AllPlacing(v, ofst, offsets);
    if k in p.at { assert HasPlace(v.Tx(k), p.at[k], offsets); }
  }

  /** Every entry of set k is found at its offset, which is a real one. */
  lemma EntryFound(v: Numbering, t: Tables, ofst: seq<int>, offsets: map<int, map<int, int>>, k: nat, l: nat)
    requires v.Ok() && Reported(v, t, ofst, offsets) && k < 2 * v.nxstate && l in AsMap(v.Tx(k)) && l < v.g.NSymbol()
    ensures ofst[k] in offsets && l in offsets[ofst[k]] && ofst[k] != NO_OFFSET
    ensures 0 <= ofst[k] + l < |t.lookahead| == |t.action| && t.lookahead[ofst[k] + l] == l
    ensures t.action[ofst[k] + l] == AsMap(v.Tx(k))[l]
  {
    hide AllPlaced, Least, OffsetTable;
    WherePlaced(v, t, ofst, offsets, k);
    NotEmpty(v.Tx(k), l);
    assert TableAnswers(t, v.g.NSymbol(), ofst[k], offsets[ofst[k]]);
  }

  lemma NotEmpty(tx: seq<LookaheadAction>, l: int)
    requires l in AsMap(tx)
    ensures tx != []
  {
  }

  /** The row of the i-th state. */
  function RowOf(v: Numbering, i: nat): seq<Action>
    requires i < |v.sorted| && v.sorted[i] < |v.rows|
  {
    v.rows[v.sorted[i]]
  }

  lemma TxLookup(v: Numbering, i: nat, kind: nat, x: nat)
    requires v.Ok() && i < v.nxstate && kind < 2
    ensures i < |v.sorted| && v.sorted[i] < |v.rows|
    ensures var m := AsMap(v.Tx(2 * i + kind)); var r := LiveOn(RowOf(v, i), x);
            && (x in m <==> OfKind(v.g, kind == 0, x) && r != [])
            && (x in m ==>
                  && (r[0].typ == SHIFT ==> r[0].x < |v.statenum|)
                  && m[x] == ComputeAction(v.C(), v.statenum, r[0]))
  {
    RowOk(v, i);
    Indexable(v, 2 * i + kind);
    TxMap(v.g, v.C(), v.statenum, RowOf(v, i), kind == 0, x);
    var r := LiveOn(RowOf(v, i), x);
    if r != [] { assert r[0] in RowOf(v, i); }
  }

  lemma TokenTx(v: Numbering, i: nat, a: nat)
    requires v.Ok() && i < v.nxstate && a < v.g.nterminal
    ensures i < |v.sorted| && v.sorted[i] < |v.rows|
    ensures a in AsMap(v.Tx(2 * i)) <==> LiveOn(RowOf(v, i), a) != []
    ensures a in AsMap(v.Tx(2 * i)) ==> RightCode(v, i, a, AsMap(v.Tx(2 * i))[a])
    ensures a < v.g.NSymbol()
  {
    hide Numbering.Ok, Numbering.Tx, AsMap, LiveOn, ComputeAction;
    TxLookup(v, i, 0, a);
    SymbolsBelow(v);
    assert 2 * i + 0 == 2 * i;
  }

  lemma NtTx(v: Numbering, i: nat, x: nat)
    requires v.Ok() && i < v.nxstate && v.g.Nonterminal(x)
    ensures i < |v.sorted| && v.sorted[i] < |v.rows|
    ensures x in AsMap(v.Tx(2 * i + 1)) <==> LiveOn(RowOf(v, i), x) != []
    ensures x in AsMap(v.Tx(2 * i + 1)) ==> RightCode(v, i, x, AsMap(v.Tx(2 * i + 1))[x])
  {
    TxLookup(v, i, 1, x);
  }

  /** The code the tables should give for token a: the state's own action, else its default. */
  ghost predicate RightCode(v: Numbering, i: nat, a: nat, code: int)
    requires i < |v.sorted| && v.sorted[i] < |v.rows|
  {
    var r := LiveOn(RowOf(v, i), a);
    if r != [] then (r[0].typ == SHIFT ==> r[0].x < |v.statenum|) && code == ComputeAction(v.C(), v.statenum, r[0])
    else code == DefaultRule(v.g, RowOf(v, i)) + v.C().MinReduce()
  }

  /** A token with an action of its own is always found. */
  lemma ShiftFound(v: Numbering, t: Tables, ofst: seq<int>, offsets: map<int, map<int, int>>, i: nat, a: nat)
    requires v.Ok() && Reported(v, t, ofst, offsets) && i < v.nxstate && i < |t.shiftOfst| && a < v.g.nterminal
    requires i < |v.sorted| && v.sorted[i] < |v.rows| && LiveOn(RowOf(v, i), a) != [] && |t.action| == |t.lookahead|
    requires i < |t.dflt| <= t.c.MinReduce()
    ensures RightCode(v, i, a, FindShiftAction(t, i, a))
  {
    hide *;
    TokenTx(v, i, a);
    EntryFound(v, t, ofst, offsets, 2 * i, a);
    ReportedSize(v, t, ofst, offsets);
    ShiftOffset(v, t, ofst, offsets, i);
    FindsHit(t, i, a);
  }

  lemma ReportedSize(v: Numbering, t: Tables, ofst: seq<int>, offsets: map<int, map<int, int>>)
    requires Reported(v, t, ofst, offsets)
    ensures |ofst| == 2 * v.nxstate
  {
  }

  lemma FindsHit(t: Tables, i: nat, a: nat)
    requires |t.action| == |t.lookahead| && i < |t.shiftOfst| && i < |t.dflt| <= t.c.MinReduce()
    requires t.shiftOfst[i] != t.shiftUseDflt && 0 <= t.shiftOfst[i] + a < |t.lookahead|
    requires t.lookahead[t.shiftOfst[i] + a] == a
    ensures FindShiftAction(t, i, a) == t.action[t.shiftOfst[i] + a]
  {
  }

  /** What the emitted offset of state i is. */
  lemma ShiftOffset(v: Numbering, t: Tables, ofst: seq<int>, offsets: map<int, map<int, int>>, i: nat)
    requires Reported(v, t, ofst, offsets) && i < v.nxstate
    ensures ofst[2 * i] != NO_OFFSET ==> i < |t.shiftOfst| && t.shiftOfst[i] == ofst[2 * i] != t.shiftUseDflt
    ensures ofst[2 * i] == NO_OFFSET && i < |t.shiftOfst| ==> t.shiftOfst[i] == t.shiftUseDflt
    ensures i < |t.dflt|
  {
    hide AllPlaced, TableAnswers;
    assert (2 * i) % 2 == 0 && ofst[2 * i] == ofst[2 * i + 0];
  }

  /** A token without one gets the default, unless another state's set shares the offset. */
  lemma ShiftMissed(v: Numbering, t: Tables, ofst: seq<int>, offsets: map<int, map<int, int>>, i: nat, a: nat)
    requires v.Ok() && Reported(v, t, ofst, offsets) && i < v.nxstate && i < |t.shiftOfst| && a < v.g.nterminal
    requires i < |v.sorted| && v.sorted[i] < |v.rows| && LiveOn(RowOf(v, i), a) == [] && |t.action| == |t.lookahead|
    requires i < |t.dflt| <= t.c.MinReduce() && Apart(v, t)
    ensures FindShiftAction(t, i, a) == t.dflt[i]
  {
    hide AllPlaced, Least, OffsetTable, Numbering.Ok, TableAnswers;
    TokenTx(v, i, a);
    ShiftOffset(v, t, ofst, offsets, i);
    var o := t.shiftOfst[i];
    if o != t.shiftUseDflt && 0 <= o + a < |t.lookahead| && t.lookahead[o + a] == a {
      StrangeHit(v, t, ofst, offsets, i, a);
    }
  }

  lemma StrangeHit(v: Numbering, t: Tables, ofst: seq<int>, offsets: map<int, map<int, int>>, i: nat, a: nat)
    requires v.Ok() && Reported(v, t, ofst, offsets) && i < v.nxstate && i < |t.shiftOfst| && a < v.g.nterminal
    requires t.shiftOfst[i] != t.shiftUseDflt && |t.action| == |t.lookahead|
    requires 0 <= t.shiftOfst[i] + a < |t.lookahead| && t.lookahead[t.shiftOfst[i] + a] == a
    requires Apart(v, t)
    ensures a in AsMap(v.Tx(2 * i))
  {
    hide AllPlaced, Least, OffsetTable, Numbering.Ok;
    var o := t.shiftOfst[i];
    ShiftOffset(v, t, ofst, offsets, i);
    WherePlaced(v, t, ofst, offsets, 2 * i);
    assert TableAnswers(t, v.g.NSymbol(), o, offsets[o]);
    SymbolsBelow(v);
    var k := EntryIsAction(v, ofst, offsets, o, a);
    TokenSet(v, k, a);
    ShiftOffset(v, t, ofst, offsets, k / 2);
    assert ofst[k] != NO_OFFSET && t.shiftOfst[k / 2] == o;
    assert AsMap(v.Tx(2 * i)) == AsMap(v.Tx(2 * (k / 2)));
  }

  lemma SymbolsBelow(v: Numbering)
    requires v.Ok()
    ensures v.g.nterminal < v.g.NSymbol()
  {
  }

  lemma TokenSet(v: Numbering, k: nat, a: nat)
    requires v.Ok() && k < 2 * v.nxstate && a < v.g.nterminal && a in AsMap(v.Tx(k))
    ensures k % 2 == 0 && k == 2 * (k / 2)
  {
    TxLookup(v, k / 2, k % 2, a);
  }

  /** The packed lookup is the row's: for every token, in every state within YY_SHIFT_COUNT. */
  lemma ShiftLookup(v: Numbering, t: Tables, ofst: seq<int>, offsets: map<int, map<int, int>>, i: nat, a: nat)
    requires v.Ok() && Reported(v, t, ofst, offsets) && Apart(v, t)
    requires i < v.nxstate && i < |t.shiftOfst| && a < v.g.nterminal
    requires i < |v.sorted| && v.sorted[i] < |v.rows| && |t.action| == |t.lookahead| && i < |t.dflt| <= t.c.MinReduce()
    ensures RightCode(v, i, a, FindShiftAction(t, i, a))
  {
    if LiveOn(RowOf(v, i), a) != [] {
      ShiftFound(v, t, ofst, offsets, i, a);
    } else {
      ShiftMissed(v, t, ofst, offsets, i, a);
    }
  }

  /** After a reduction: every nonterminal action of a row is found, whatever shares its offset. */
  lemma ReduceLookup(v: Numbering, t: Tables, ofst: seq<int>, offsets: map<int, map<int, int>>, i: nat, x: nat)
    requires v.Ok() && Reported(v, t, ofst, offsets) && i < v.nxstate && v.g.Nonterminal(x)
    requires i < |v.sorted| && v.sorted[i] < |v.rows| && LiveOn(RowOf(v, i), x) != []
    ensures ReduceDefined(t, i, x) && RightCode(v, i, x, FindReduceAction(t, i, x))
  {
    hide AllPlaced, Numbering.Ok, Numbering.Tx, Reported, RightCode, AsMap;
    NtTx(v, i, x);
    EntryFound(v, t, ofst, offsets, 2 * i + 1, x);
    ReportedSize(v, t, ofst, offsets);
    ReduceOffset(v, t, ofst, offsets, i);
  }

  lemma ReduceOffset(v: Numbering, t: Tables, ofst: seq<int>, offsets: map<int, map<int, int>>, i: nat)
    requires Reported(v, t, ofst, offsets) && i < v.nxstate
    ensures ofst[2 * i + 1] != NO_OFFSET ==> i < |t.reduceOfst| && t.reduceOfst[i] == ofst[2 * i + 1] != t.reduceUseDflt
  {
    hide AllPlaced, TableAnswers;
    assert (2 * i + 1) % 2 == 1;
  }

  // ---------------------------------------------------------------- decoded

  /** A live action of an emitted row has a code that the driver reads back. */
  lemma RowCodable(v: Numbering, i: nat, a: Action)
    requires v.Ok() && i < v.nxstate && i < |v.sorted| && v.sorted[i] < |v.rows| && LiveIn(RowOf(v, i), a)
    ensures v.C().Ok() && Codable(v.C(), v.sorted, v.statenum, a)
  {
    var s := v.sorted[i];
    assert TableRow(v.g, v.auto, v.dflt, s, v.rows[s]);
    if a.typ == SHIFT {
      NotAutomaticEmitted(v.auto, v.sorted, v.statenum, v.nxstate, a.x);
    }
  }

  /** The code on a token is that of the row's move. */
  lemma CodeOnToken(v: Numbering, i: nat, a: nat, code: int)
    requires v.Ok() && i < v.nxstate && i < |v.sorted| && v.sorted[i] < |v.rows|
    requires RightCode(v, i, a, code)
    ensures CodeFor(v.C(), v.sorted, code, TokenMove(v.g, v.rows, At(v.sorted[i]), a))
  {
    hide Numbering.Ok, CodeFor, Codable;
    var row := RowOf(v, i);
    var own, d := LiveOn(row, a), LiveOn(row, v.g.NSymbol());
    if own != [] {
      RowCodable(v, i, own[0]);
      CodeOfAction(v.C(), v.sorted, v.statenum, own[0]);
    } else {
      CodeOfDefault(v, i);
    }
  }

  lemma CodeOfDefault(v: Numbering, i: nat)
    requires v.Ok() && i < v.nxstate && i < |v.sorted| && v.sorted[i] < |v.rows|
    ensures var d := LiveOn(RowOf(v, i), v.g.NSymbol());
            CodeFor(v.C(), v.sorted, DefaultRule(v.g, RowOf(v, i)) + v.C().MinReduce(), if d != [] then MoveOf(d[0])
                    else Error_)
  {
    if LiveOn(RowOf(v, i), v.g.NSymbol()) != [] { DefaultIsReduce(v, i); }
  }

  lemma DefaultIsReduce(v: Numbering, i: nat)
    requires v.Ok() && i < v.nxstate && i < |v.sorted| && v.sorted[i] < |v.rows|
    requires LiveOn(RowOf(v, i), v.g.NSymbol()) != []
    ensures var d := LiveOn(RowOf(v, i), v.g.NSymbol())[0]; d.typ == REDUCE && d.x < |v.g.rules|
  {
    var s := v.sorted[i];
    assert TableRow(v.g, v.auto, v.dflt, s, v.rows[s]);
    assert LiveIn(RowOf(v, i), LiveOn(RowOf(v, i), v.g.NSymbol())[0]);
  }

  lemma CodeOnGoto(v: Numbering, i: nat, x: nat, code: int)
    requires v.Ok() && i < v.nxstate && i < |v.sorted| && v.sorted[i] < |v.rows|
    requires RightCode(v, i, x, code) && LiveOn(RowOf(v, i), x) != []
    ensures CodeFor(v.C(), v.sorted, code, GotoMove(v.rows, v.sorted[i], x))
  {
    hide Numbering.Ok, CodeFor, Codable;
    var own := LiveOn(RowOf(v, i), x);
    RowCodable(v, i, own[0]);
    CodeOfAction(v.C(), v.sorted, v.statenum, own[0]);
  }

  // ---------------------------------------------------------------- when the tables are exact

  /** Every token offset answers for exactly the tokens of its state. */
  ghost predicate HitsExact(v: Numbering, t: Tables) {
    forall i, a | 0 <= i < |t.shiftOfst| && 0 <= a < v.g.nterminal && t.shiftOfst[i] != t.shiftUseDflt ::
      TokenHit(t, i, a) <==> a in AsMap(v.Tx(2 * i))
  }

  ghost predicate TokenHit(t: Tables, i: nat, a: nat)
    requires i < |t.shiftOfst|
  {
    0 <= t.shiftOfst[i] + a < |t.lookahead| && t.lookahead[t.shiftOfst[i] + a] == a
  }

  /** Token lookups are exact if and only if no two states with different token actions were given
      the same offset. */
  lemma HitsExactIffApart(v: Numbering, t: Tables, ofst: seq<int>, offsets: map<int, map<int, int>>)
    requires v.Ok() && Reported(v, t, ofst, offsets)
    ensures HitsExact(v, t) <==> Apart(v, t)
  {
    hide AllPlaced, Least, OffsetTable, Numbering.Ok, TableAnswers, Reported, AsMap, Numbering.Tx;
    TableSizes(v, t, ofst, offsets);
    if Apart(v, t) {
      forall i, a | 0 <= i < |t.shiftOfst| && 0 <= a < v.g.nterminal && t.shiftOfst[i] != t.shiftUseDflt
        ensures TokenHit(t, i, a) <==> a in AsMap(v.Tx(2 * i))
      {
        TokenTx(v, i, a);
        ShiftOffset(v, t, ofst, offsets, i);
        if a in AsMap(v.Tx(2 * i)) { EntryFound(v, t, ofst, offsets, 2 * i, a); }
        if TokenHit(t, i, a) { StrangeHit(v, t, ofst, offsets, i, a); }
      }
    }
    if HitsExact(v, t) {
      forall i, j | 0 <= i < |t.shiftOfst| && 0 <= j < |t.shiftOfst|
        && t.shiftOfst[i] == t.shiftOfst[j] != t.shiftUseDflt
        ensures AsMap(v.Tx(2 * i)) == AsMap(v.Tx(2 * j))
      {
        SameOffsetSameSet(v, t, ofst, offsets, i, j);
      }
    }
  }

  lemma TableSizes(v: Numbering, t: Tables, ofst: seq<int>, offsets: map<int, map<int, int>>)
    requires v.Ok() && Reported(v, t, ofst, offsets)
    ensures |t.shiftOfst| <= v.nxstate == |t.dflt| <= t.c.MinReduce() && |ofst| == 2 * v.nxstate
    ensures |t.shiftOfst| > 0 ==> |t.action| == |t.lookahead|
  {
    hide Numbering.Tx, AllPlaced, Least, TableAnswers, InOrder, TableRows;
    if |t.shiftOfst| > 0 {
      var k := 2 * (|t.shiftOfst| - 1);
      assert ofst[k + 0] != NO_OFFSET;
      WherePlaced(v, t, ofst, offsets, k);
      AnswersSize(t, v.g.NSymbol(), ofst[k], offsets[ofst[k]]);
    }
  }

  lemma AnswersSize(t: Tables, nsymbol: nat, o: int, entries: map<int, int>)
    requires TableAnswers(t, nsymbol, o, entries)
    ensures |t.action| == |t.lookahead|
  {
  }

  lemma SameOffsetSameSet(v: Numbering, t: Tables, ofst: seq<int>, offsets: map<int, map<int, int>>, i: nat, j: nat)
    requires v.Ok() && Reported(v, t, ofst, offsets) && HitsExact(v, t) && |t.shiftOfst| <= v.nxstate
    requires i < |t.shiftOfst| && j < |t.shiftOfst| && t.shiftOfst[i] == t.shiftOfst[j] != t.shiftUseDflt
    ensures AsMap(v.Tx(2 * i)) == AsMap(v.Tx(2 * j))
  {
    hide AllPlaced, Least, OffsetTable, Numbering.Ok, TableAnswers, Reported, AsMap, Numbering.Tx;
    ReportedSize(v, t, ofst, offsets);
    ShiftOffset(v, t, ofst, offsets, i);
    ShiftOffset(v, t, ofst, offsets, j);
    var m, m' := AsMap(v.Tx(2 * i)), AsMap(v.Tx(2 * j));
    forall l
      ensures l in m <==> l in m'
      ensures l in m ==> m[l] == m'[l]
    {
      if l in m { TokensOnly(v, i, l); }
      if l in m' { TokensOnly(v, j, l); }
      if l in m || l in m' {
        assert TokenHit(t, i, l) <==> TokenHit(t, j, l);
        EntryFound(v, t, ofst, offsets, 2 * i, l);
        EntryFound(v, t, ofst, offsets, 2 * j, l);
      }
    }
  }

  lemma TokensOnly(v: Numbering, i: nat, l: int)
    requires v.Ok() && i < v.nxstate && l in AsMap(v.Tx(2 * i))
    ensures 0 <= l < v.g.nterminal < v.g.NSymbol()
  {
    hide Numbering.Ok, AsMap, TxOf, LiveOn, OneLive, ComputeAction;
    RowOk(v, i);
    Indexable(v, 2 * i);
    SymbolsBelow(v);
    assert (2 * i) % 2 == 0 && (2 * i) / 2 == i;
    TxMap(v.g, v.C(), v.statenum, RowOf(v, i), true, l);
  }

  // ---------------------------------------------------------------- when sets clash

  /** The search for a place for the i-th set, one of tokens, is exhausted and ends at an offset that
      another token set has. */
  ghost predicate ClashAt(v: Numbering, order: seq<nat>, i: nat)
    requires i < |order|
  {
    var p, tx := PlacedUpTo(v, order, i), v.Tx(order[i]);
    && order[i] % 2 == 0 && tx != [] && p.table.n <= |p.table.tab|
    && p.table.Exhausted(tx)
    && exists j :: j in p.at && j % 2 == 0 && p.at[j] == p.table.Offset(tx)
  }

  ghost predicate Clash(v: Numbering) {
    exists order, i :: SetOrder(v, order) && 0 <= i < |order| && ClashAt(v, order, i)
  }

  /** Token sets at one offset are the same. */
  ghost predicate TokensApart(v: Numbering, p: Placement) {
    forall j, k | j in p.at && k in p.at && j % 2 == 0 && k % 2 == 0 && p.at[j] == p.at[k] ::
      AsMap(v.Tx(j)) == AsMap(v.Tx(k))
  }

  /** The union of the token sets at an offset is each of them. */
  lemma OneSetThere(v: Numbering, p: Placement, j: nat, k: nat)
    requires v.Ok() && Placing(v, p) && TokensApart(v, p) && j in p.at && j % 2 == 0
    requires k < 2 * v.nxstate && k % 2 == 0 && p.table.offsets[p.at[j]] == AsMap(v.Tx(k))
    ensures AsMap(v.Tx(j)) == AsMap(v.Tx(k))
  {
    hide Numbering.Ok, Numbering.Tx, Packing.Ok, AsMap;
    var m, m' := AsMap(v.Tx(j)), AsMap(v.Tx(k));
    assert HasPlace(v.Tx(j), p.at[j], p.table.offsets);
    forall l | l in m'
      ensures l in m
    {
      assert Sourced(v, p.at, p.at[j], l);
      var i :| i in p.at && p.at[i] == p.at[j] && l in AsMap(v.Tx(i));
      TokensOnly(v, k / 2, l);
      TokenSet(v, i, l);
    }
    SameMap(m, m');
  }

  lemma SameMap(a: map<int, int>, b: map<int, int>)
    requires forall l :: l in a <==> l in b
    requires forall l | l in a :: a[l] == b[l]
    ensures a == b
  {
    forall l
      ensures l in a <==> l in b
      ensures l in a ==> a[l] == b[l]
    {
    }
  }

  /** Putting in a set keeps the token sets apart exactly when it does not clash. */
  lemma PutApart(v: Numbering, order: seq<nat>, i: nat)
    requires v.Ok() && SetOrder(v, order) && i < |order|
    ensures TokensApart(v, PlacedUpTo(v, order, i + 1)) <==>
            TokensApart(v, PlacedUpTo(v, order, i)) && !ClashAt(v, order, i)
  {
    hide Numbering.Ok, Numbering.Tx, Packing.Ok, Packing.Offset, Packing.Exhausted, Packing.Inserted, Placing, AsMap;
    hide Merged, SetCompare;
    PlacedOk(v, order, i);
    var p, q, k := PlacedUpTo(v, order, i), PlacedUpTo(v, order, i + 1), order[i];
    assert k in order && k !in order[..i];
    assert q == Put(v, p, k);
    if v.Tx(k) != [] {
      PlacingTable(v, p);
      PutMerges(v, p, k);
      if TokensApart(v, q) {
        StillApart(v, p, q, k);
        if ClashAt(v, order, i) { ClashSplits(v, p, q, k); }
      }
      if TokensApart(v, p) && !ClashAt(v, order, i) { ApartNext(v, p, q, k); }
    }
  }

  lemma StillApart(v: Numbering, p: Placement, q: Placement, k: nat)
    requires TokensApart(v, q) && k !in p.at && q.at.Keys == p.at.Keys + {k}
    requires forall j | j in p.at :: q.at[j] == p.at[j]
    ensures TokensApart(v, p)
  {
    hide Numbering.Tx, AsMap;
    forall j, h | j in p.at && h in p.at && j % 2 == 0 && h % 2 == 0 && p.at[j] == p.at[h]
      ensures AsMap(v.Tx(j)) == AsMap(v.Tx(h))
    {
      assert q.at[j] == q.at[h];
    }
  }

  lemma ClashSplits(v: Numbering, p: Placement, q: Placement, k: nat)
    requires v.Ok() && Placing(v, p) && Merges(p, v.Tx(k)) && k !in p.at && k % 2 == 0 && k < 2 * v.nxstate
    requires p.table.Exhausted(v.Tx(k)) && q.at == p.at[k := p.table.Offset(v.Tx(k))]
    requires exists j :: j in p.at && j % 2 == 0 && p.at[j] == p.table.Offset(v.Tx(k))
    ensures !TokensApart(v, q)
  {
    hide Numbering.Ok, Numbering.Tx, Packing.Ok, Packing.Offset, Packing.Exhausted, Packing.Inserted, AsMap, Merged;
    var j :| j in p.at && j % 2 == 0 && p.at[j] == p.table.Offset(v.Tx(k));
    assert HasPlace(v.Tx(j), p.at[j], p.table.offsets);
    SetSize(v, j);
    TxEntry(v.Tx(j));
    assert q.at[j] == q.at[k];
    assert v.Tx(j)[0].lookahead in p.table.offsets[p.at[j]];
  }

  lemma ApartNext(v: Numbering, p: Placement, q: Placement, k: nat)
    requires v.Ok() && Placing(v, p) && Merges(p, v.Tx(k)) && k !in p.at && k < 2 * v.nxstate && TokensApart(v, p)
    requires q.at == p.at[k := p.table.Offset(v.Tx(k))]
    requires !(k % 2 == 0 && p.table.Exhausted(v.Tx(k))
               && exists j :: j in p.at && j % 2 == 0 && p.at[j] == p.table.Offset(v.Tx(k)))
    ensures TokensApart(v, q)
  {
    hide Numbering.Ok, Numbering.Tx, Packing.Ok, Packing.Offset, Packing.Exhausted, Packing.Inserted, AsMap, Merged;
    forall j | j in p.at && j % 2 == 0 && k % 2 == 0 && q.at[j] == q.at[k]
      ensures AsMap(v.Tx(j)) == AsMap(v.Tx(k))
    {
      assert HasPlace(v.Tx(j), p.at[j], p.table.offsets);
      OneSetThere(v, p, j, k);
    }
  }

  lemma NothingApart(v: Numbering, order: seq<nat>)
    ensures TokensApart(v, PlacedUpTo(v, order, 0))
  {
  }

  lemma {:induction false} ApartUpTo(v: Numbering, order: seq<nat>, i: nat)
    requires v.Ok() && SetOrder(v, order) && i <= |order|
    ensures TokensApart(v, PlacedUpTo(v, order, i)) <==> forall h | 0 <= h < i :: !ClashAt(v, order, h)
  {
    hide *;
    if i == 0 {
      NothingApart(v, order);
    } else {
      ApartUpTo(v, order, i - 1);
      PutApart(v, order, i - 1);
    }
  }

  /** Two states with different token actions get the same offset if and only if the search for a
      place was exhausted for some token set at the offset of another: this depends on the rows alone. */
  lemma ApartIffNoClash(v: Numbering, t: Tables, ofst: seq<int>, offsets: map<int, map<int, int>>)
    requires v.Ok() && Reported(v, t, ofst, offsets)
    ensures Apart(v, t) <==> !Clash(v)
  {
    hide Numbering.Ok, Numbering.Tx, ClashAt, AsMap, SetOrder, Reported, TokensApart;
    var order :| SetOrder(v, order) && PlacedAs(v, order, ofst, offsets) by { PlacedSomehow(v, t, ofst, offsets); }
    ApartUpTo(v, order, |order|);
    ApartIfTokens(v, t, ofst, offsets, order);
    if Clash(v) {
      var order', i :| SetOrder(v, order') && 0 <= i < |order'| && ClashAt(v, order', i);
      OrderUnique(v, order, order');
    }
  }

  /** Token lookups are exact if and only if no token sets clash. */
  lemma HitsExactIffNoClash(v: Numbering, t: Tables, ofst: seq<int>, offsets: map<int, map<int, int>>)
    requires v.Ok() && Reported(v, t, ofst, offsets)
    ensures HitsExact(v, t) <==> !Clash(v)
  {
    hide *;
    HitsExactIffApart(v, t, ofst, offsets);
    ApartIffNoClash(v, t, ofst, offsets);
  }

  lemma PlacedSomehow(v: Numbering, t: Tables, ofst: seq<int>, offsets: map<int, map<int, int>>)
    requires Reported(v, t, ofst, offsets)
    ensures exists order :: SetOrder(v, order) && PlacedAs(v, order, ofst, offsets)
  {
    hide SetOrder, PlacedAs;
  }

  lemma ApartIfTokens(v: Numbering, t: Tables, ofst: seq<int>, offsets: map<int, map<int, int>>, order: seq<nat>)
    requires v.Ok() && Reported(v, t, ofst, offsets) && SetOrder(v, order) && PlacedAs(v, order, ofst, offsets)
    ensures Apart(v, t) <==> TokensApart(v, PlacedUpTo(v, order, |order|))
  {
    hide Numbering.Ok, Numbering.Tx, AsMap, SetOrder, Reported, PlacedUpTo;
    var p := PlacedUpTo(v, order, |order|);
    TableSizes(v, t, ofst, offsets);
    forall i: nat | 2 * i < 2 * v.nxstate
      ensures 2 * i in p.at <==> i < |t.shiftOfst| && t.shiftOfst[i] != t.shiftUseDflt
      ensures 2 * i in p.at ==> t.shiftOfst[i] == p.at[2 * i]
    {
      ShiftOffset(v, t, ofst, offsets, i);
      RealOffset(v, t, ofst, offsets, order, 2 * i);
    }
    PlacedBelow(v, order);
    if TokensApart(v, p) {
      forall i, j | 0 <= i < |t.shiftOfst| && 0 <= j < |t.shiftOfst|
        && t.shiftOfst[i] == t.shiftOfst[j] != t.shiftUseDflt
        ensures AsMap(v.Tx(2 * i)) == AsMap(v.Tx(2 * j))
      {
        assert 2 * i in p.at && 2 * j in p.at;
      }
    }
    if Apart(v, t) {
      forall j, k | j in p.at && k in p.at && j % 2 == 0 && k % 2 == 0 && p.at[j] == p.at[k]
        ensures AsMap(v.Tx(j)) == AsMap(v.Tx(k))
      {
        assert j == 2 * (j / 2) && k == 2 * (k / 2);
        assert t.shiftOfst[j / 2] == t.shiftOfst[k / 2];
      }
    }
  }

  lemma PlacedBelow(v: Numbering, order: seq<nat>)
    requires v.Ok() && SetOrder(v, order)
    ensures forall k | k in PlacedUpTo(v, order, |order|).at :: k < 2 * v.nxstate
  {
    hide Numbering.Ok, Numbering.Tx, SetOrder;
    PlacedOk(v, order, |order|);
  }

  /** The offset of a set that has been put in is not mistaken for none. */
  lemma RealOffset(v: Numbering, t: Tables, ofst: seq<int>, offsets: map<int, map<int, int>>, order: seq<nat>, k: nat)
    requires v.Ok() && Reported(v, t, ofst, offsets) && SetOrder(v, order) && PlacedAs(v, order, ofst, offsets)
    requires k < 2 * v.nxstate
    ensures k in PlacedUpTo(v, order, |order|).at <==> ofst[k] != NO_OFFSET
    ensures |ofst| == 2 * v.nxstate
  {
    hide Numbering.Ok, Numbering.Tx, AsMap, Reported, SetCompare;
    var p := PlacedUpTo(v, order, |order|);
    PlacedOk(v, order, |order|);
    if k in p.at {
      SetSize(v, k);
      TxEntry(v.Tx(k));
      SymbolsOnly(v, k, v.Tx(k)[0].lookahead);
      EntryFound(v, t, ofst, offsets, k, v.Tx(k)[0].lookahead);
    }
  }

  lemma SymbolsOnly(v: Numbering, k: nat, l: int)
    requires v.Ok() && k < 2 * v.nxstate && l in AsMap(v.Tx(k))
    ensures 0 <= l < v.g.NSymbol()
  {
    hide AsMap, TxOf, LiveOn, OneLive, ComputeAction;
    RowOk(v, k / 2);
    Indexable(v, k);
    TxMap(v.g, v.C(), v.statenum, RowOf(v, k / 2), k % 2 == 0, l);
  }

  /** The grammar  s ::= A N K K K.  with 16 tokens, of which A is 1, K 11 and N 14; s is 17. */
  function Crowded(): Grammar {
    Grammar(16, seq(18, i => Symbol(-1, UNK)), [Rule(17, [1, 14, 11, 11, 11], 0, -1, false)], 17)
  }

  /** Its states, renumbered: state 0, then the later ones first. */
  function CrowdedStates(): Numbering {
    Numbering(Crowded(),
              [[Action(1, SHIFT, 1), Action(17, ACCEPT, 0)], [Action(14, SHIFT, 2)], [Action(11, SHIFT, 3)],
               [Action(11, SHIFT, 4)], [Action(11, SHIFT, 5)], [Action(0, REDUCE, 0)]],
              seq(6, i => false), seq(6, i => -1), [0, 5, 4, 3, 2, 1], [0, 5, 4, 3, 2, 1], 6)
  }

  lemma CrowdedOk()
    ensures CrowdedStates().Ok()
  {
    hide Grammar.Valid, TableRow, Renumbered, Trimmed, InOrder;
    var v := CrowdedStates();
    CrowdedInOrder();
    CrowdedValid();
    forall s | 0 <= s < |v.rows|
      ensures TableRow(v.g, v.auto, v.dflt, s, v.rows[s])
    {
      CrowdedRow(s);
    }
    CrowdedNumbers();
  }

  lemma CrowdedValid()
    ensures Crowded().Valid()
  {
    var g := Crowded();
    assert g.ValidRule(g.rules[0]);
  }

  lemma CrowdedNumbers()
    ensures var v := CrowdedStates();
            Renumbered(|v.rows|, v.sorted, v.statenum) && Trimmed(v.auto, v.sorted, v.nxstate)
  {
  }

  lemma CrowdedCounts(s: nat)
    requires 0 < s < 6
    ensures TokenCount(Crowded(), CrowdedStates().rows[s]) == 1 && NtCount(Crowded(), CrowdedStates().rows[s]) == 0
  {
    var row := CrowdedStates().rows[s];
    assert row[..0] == [] && row == [row[0]];
  }

  lemma CrowdedInOrder()
    ensures InOrder(Crowded(), CrowdedStates().rows, CrowdedStates().sorted)
  {
    hide TokenCount, NtCount;
    var v := CrowdedStates();
    forall i, j | 1 <= i < j < |v.sorted|
      ensures Precedes(v.g, v.rows, v.sorted[i], v.sorted[j])
    {
      CrowdedCounts(v.sorted[i]);
      CrowdedCounts(v.sorted[j]);
    }
  }

  lemma CrowdedRow(s: nat)
    requires s < 6
    ensures var v := CrowdedStates(); TableRow(v.g, v.auto, v.dflt, s, v.rows[s])
  {
    var v := CrowdedStates();
    assert OneLive(v.rows[s]);
  }

  /** The sets in the order of their states, each of one entry; the empty ones come last. */
  function CrowdedOrder(): seq<nat> { [0, 1, 2, 4, 6, 8, 10, 3, 5, 7, 9, 11] }

  function CrowdedEntries(): seq<LookaheadAction> {
    [LookaheadAction(1, 5), LookaheadAction(17, 9), LookaheadAction(0, 7), LookaheadAction(11, 1),
     LookaheadAction(11, 2), LookaheadAction(11, 3), LookaheadAction(14, 4)]
  }

  /** The transaction of a row of one action. */
  lemma TxOne(g: Grammar, c: Codes, statenum: seq<nat>, a: Action, isTkn: bool)
    requires Shiftable(statenum, [a])
    ensures a.typ == SHIFT ==> a.x < |statenum|
    ensures TxOf(g, c, statenum, [a], isTkn) ==
            if Chosen(g, isTkn, a) then [LookaheadAction(a.sp, ComputeAction(c, statenum, a))] else []
  {
    hide ComputeAction, Chosen;
    assert a in [a] && [a][..0] == [];
  }

  /** The transaction of a row of two actions. */
  lemma TxTwo(g: Grammar, c: Codes, statenum: seq<nat>, a: Action, b: Action, isTkn: bool)
    requires Shiftable(statenum, [a, b])
    ensures Shiftable(statenum, [a]) && Shiftable(statenum, [b])
    ensures TxOf(g, c, statenum, [a, b], isTkn) ==
            TxOf(g, c, statenum, [a], isTkn) + TxOf(g, c, statenum, [b], isTkn)
  {
    hide ComputeAction, Chosen;
    assert [a, b][..1] == [a] && [b][..0] == [];
    assert a in [a, b] && b in [a, b];
  }

  lemma CrowdedSet(i: nat)
    requires i < 12
    ensures CrowdedStates().Tx(CrowdedOrder()[i]) == if i < 7 then [CrowdedEntries()[i]] else []
  {
    hide Numbering.Tx, TxOf;
    if i < 2 {
      CrowdedFirst(i);
    } else if i == 2 {
      CrowdedOne(2, Action(0, REDUCE, 0));
    } else if i == 3 {
      CrowdedOne(4, Action(11, SHIFT, 5));
    } else if i == 4 {
      CrowdedOne(6, Action(11, SHIFT, 4));
    } else if i == 5 {
      CrowdedOne(8, Action(11, SHIFT, 3));
    } else if i == 6 {
      CrowdedOne(10, Action(14, SHIFT, 2));
    } else {
      CrowdedNone(CrowdedOrder()[i]);
    }
  }

  lemma CrowdedFirst(k: nat)
    requires k < 2
    ensures CrowdedStates().Tx(k) == [CrowdedEntries()[k]]
  {
    hide TxOf, ComputeAction, Chosen;
    var v := CrowdedStates();
    CrowdedRow0();
    assert v.Row_(0);
    CrowdedShiftOfA(k == 0);
  }

  lemma CrowdedRow0()
    ensures var v := CrowdedStates();
            && v.sorted[0] == 0 && v.rows[0] == [Action(1, SHIFT, 1), Action(17, ACCEPT, 0)]
            && Shiftable(v.statenum, v.rows[0]) && v.C() == Codes(6, 6, 1) && v.statenum == [0, 5, 4, 3, 2, 1]
  {
  }

  lemma CrowdedShiftOfA(isTkn: bool)
    requires Shiftable([0, 5, 4, 3, 2, 1], [Action(1, SHIFT, 1), Action(17, ACCEPT, 0)])
    ensures TxOf(Crowded(), Codes(6, 6, 1), [0, 5, 4, 3, 2, 1], [Action(1, SHIFT, 1), Action(17, ACCEPT, 0)], isTkn) ==
            [CrowdedEntries()[if isTkn then 0 else 1]]
  {
    hide TxOf, Live, Chosen, ComputeAction;
    var c, statenum := Codes(6, 6, 1), [0, 5, 4, 3, 2, 1];
    var a, b := Action(1, SHIFT, 1), Action(17, ACCEPT, 0);
    CrowdedToken(isTkn);
    CrowdedNonterminal(isTkn);
    CrowdedCodes(c, statenum);
    TxTwo(Crowded(), c, statenum, a, b, isTkn);
    TxOne(Crowded(), c, statenum, a, isTkn);
    TxOne(Crowded(), c, statenum, b, isTkn);
  }

  lemma CrowdedToken(isTkn: bool)
    ensures Chosen(Crowded(), isTkn, Action(1, SHIFT, 1)) <==> isTkn
  {
  }

  lemma CrowdedNonterminal(isTkn: bool)
    ensures Chosen(Crowded(), isTkn, Action(17, ACCEPT, 0)) <==> !isTkn
  {
  }

  lemma CrowdedCodes(c: Codes, statenum: seq<nat>)
    requires c == Codes(6, 6, 1) && |statenum| == 6 && statenum[1] == 5
    ensures ComputeAction(c, statenum, Action(1, SHIFT, 1)) == 5
    ensures ComputeAction(c, statenum, Action(17, ACCEPT, 0)) == 9
  {
  }

  lemma CrowdedOne(k: nat, a: Action)
    requires var v := CrowdedStates(); 2 <= k < 12 && v.rows[v.sorted[k / 2]] == [a]
    requires Chosen(Crowded(), k % 2 == 0, a)
    ensures var v := CrowdedStates();
            && (a.typ == SHIFT ==> a.x < |v.statenum|)
            && v.Tx(k) == [LookaheadAction(a.sp, ComputeAction(v.C(), v.statenum, a))]
  {
    hide TxOf;
    var v := CrowdedStates();
    assert a in v.rows[v.sorted[k / 2]];
    assert v.Row_(k / 2);
    TxOne(v.g, v.C(), v.statenum, a, k % 2 == 0);
  }

  lemma CrowdedNone(k: nat)
    requires 2 <= k < 12 && k % 2 == 1
    ensures CrowdedStates().Tx(k) == []
  {
    hide TxOf;
    var v := CrowdedStates();
    var a := v.rows[v.sorted[k / 2]][0];
    assert v.rows[v.sorted[k / 2]] == [a];
    assert v.Row_(k / 2);
    TxOne(v.g, v.C(), v.statenum, a, false);
  }

  lemma CrowdedSorted()
    ensures SetOrder(CrowdedStates(), CrowdedOrder())
  {
    hide Numbering.Tx;
    var v, order := CrowdedStates(), CrowdedOrder();
    forall k: nat
      ensures k in order <==> k < 2 * v.nxstate
    {
      if k < 12 { assert order[[0, 1, 2, 7, 3, 8, 4, 9, 5, 10, 6, 11][k]] == k; }
    }
    forall i, j | 0 <= i < j < |order|
      ensures SetCompare(v, order[i], order[j]) < 0
    {
      CrowdedSet(i);
      CrowdedSet(j);
    }
  }

  /** The table with the first i entries in the first i slots, and the places of the first i sets. */
  ghost function CrowdedTable(i: nat): seq<LookaheadAction>
    requires i <= 6
  {
    CrowdedEntries()[..i] + seq(22 - i, _ => UNUSED)
  }

  ghost predicate CrowdedUpTo(i: nat)
    requires i <= 6
  {
    var p := PlacedUpTo(CrowdedStates(), CrowdedOrder(), i);
    && p.table.Ok() && p.table.n == i && p.table.tab == (if i == 0 then [] else CrowdedTable(i))
    && CrowdedPlaces(p.at, i)
  }

  /** Entry j is in slot j. */
  ghost predicate CrowdedPlaces(at: map<nat, int>, i: nat)
    requires i <= 6
  {
    && (forall k | k in at :: k in CrowdedOrder()[..i])
    && (forall j | 0 <= j < i :: CrowdedOrder()[j] in at && at[CrowdedOrder()[j]] == j - CrowdedEntries()[j].lookahead)
  }

  lemma CrowdedStep(i: nat)
    requires i < 6 && CrowdedUpTo(i)
    ensures CrowdedUpTo(i + 1)
  {
    hide *;
    CrowdedSizes();
    var v, order := CrowdedStates(), CrowdedOrder();
    var p, e := PlacedUpTo(v, order, i), CrowdedEntries()[i];
    CrowdedParts(i);
    CrowdedSet(i);
    CrowdedRoom(p.table, i, e);
    CrowdedFree(p.table, i);
    AppendOne(p.table, e);
    OneEntry(e);
    InsertedOk(p.table, [e]);
    CrowdedNext(i);
    CrowdedFrom(i);
  }

  lemma CrowdedSizes()
    ensures |CrowdedOrder()| == 12 && |CrowdedEntries()| == 7
    ensures forall e | e in CrowdedEntries() :: e.lookahead >= 0
  {
  }

  lemma CrowdedParts(i: nat)
    requires i <= 6 && CrowdedUpTo(i)
    ensures |CrowdedOrder()| == 12
    ensures var p := PlacedUpTo(CrowdedStates(), CrowdedOrder(), i).table;
            p.Ok() && p.n == i && p.tab == (if i == 0 then [] else CrowdedTable(i))
  {
    hide PlacedUpTo, CrowdedTable, CrowdedStates;
  }

  lemma CrowdedFrom(i: nat)
    requires i < 6 && CrowdedUpTo(i) && |CrowdedOrder()| == 12 && |CrowdedEntries()| == 7
    requires CrowdedStates().Tx(CrowdedOrder()[i]) == [CrowdedEntries()[i]]
    requires CrowdedTable(i)[i := CrowdedEntries()[i]] == CrowdedTable(i + 1)
    requires var p, e := PlacedUpTo(CrowdedStates(), CrowdedOrder(), i).table, CrowdedEntries()[i];
             && p.n <= |p.tab| && p.Offset([e]) == i - e.lookahead && p.Inserted([e]).Ok()
             && p.Inserted([e]).tab == CrowdedTable(i + 1) && p.Inserted([e]).n == i + 1
    ensures CrowdedUpTo(i + 1)
  {
    hide Packing.Ok, Packing.Offset, Packing.Inserted, Numbering.Tx, CrowdedTable, CrowdedStates, CrowdedPlaces;
    hide CrowdedOrder, CrowdedEntries, PlacedUpTo;
    PlacedOneMore(CrowdedStates(), CrowdedOrder(), i);
    CrowdedOneMore(PlacedUpTo(CrowdedStates(), CrowdedOrder(), i).at, i);
  }

  lemma CrowdedOneMore(at: map<nat, int>, i: nat)
    requires i < 6 && CrowdedPlaces(at, i) && |CrowdedOrder()| == 12 && |CrowdedEntries()| == 7
    ensures CrowdedPlaces(at[CrowdedOrder()[i] := i - CrowdedEntries()[i].lookahead], i + 1)
  {
    var at' := at[CrowdedOrder()[i] := i - CrowdedEntries()[i].lookahead];
    CrowdedDiffer(i);
    hide CrowdedOrder, CrowdedEntries;
    assert CrowdedOrder()[..i + 1] == CrowdedOrder()[..i] + [CrowdedOrder()[i]];
    forall j | 0 <= j < i + 1
      ensures CrowdedOrder()[j] in at' && at'[CrowdedOrder()[j]] == j - CrowdedEntries()[j].lookahead
    {
    }
  }

  lemma CrowdedDiffer(i: nat)
    requires i < 6
    ensures forall j | 0 <= j < i :: CrowdedOrder()[j] != CrowdedOrder()[i]
  {
  }

  lemma CrowdedNext(i: nat)
    requires i < 6
    ensures CrowdedTable(i)[i := CrowdedEntries()[i]] == CrowdedTable(i + 1)
  {
  }

  lemma CrowdedRoom(p: Packing, i: nat, e: LookaheadAction)
    requires i <= 6 && p.n == i && p.tab == (if i == 0 then [] else CrowdedTable(i))
    requires e.lookahead == (if i < 6 then CrowdedEntries()[i].lookahead else 14)
    ensures p.Room([e]) == CrowdedTable(i)
  {
    assert MaxOf([e]) == e.lookahead;
  }

  lemma CrowdedFree(p: Packing, i: nat)
    requires i < 6 && p.n == i && p.tab == (if i == 0 then [] else CrowdedTable(i))
    ensures forall k | 0 <= k < p.n && k < |p.tab| ::
              var e := CrowdedEntries()[i];
              p.tab[k].lookahead >= 0 && p.tab[k] != e && p.tab[k].lookahead != k - (p.n - e.lookahead)
  {
  }

  lemma CrowdedFull()
    ensures CrowdedUpTo(6)
  {
    NothingPlaced(CrowdedStates());
    hide *;
    assert CrowdedUpTo(0) by { CrowdedNone0(); }
    for i := 0 to 6
      invariant CrowdedUpTo(i)
    {
      CrowdedStep(i);
    }
  }

  lemma CrowdedNone0()
    ensures CrowdedUpTo(0)
  {
    NothingPlaced(CrowdedStates());
  }

  /** No slot is left for the actions behind A: where slots 6 and 7 are free, the offsets that N would
      get are those of sets with K.  The search ends at a third of these. */
  lemma CrowdedExhausted(p: Packing, e: LookaheadAction)
    requires p.Ok() && p.n == 6 && p.tab == CrowdedTable(6) && e == LookaheadAction(14, 4)
    ensures p.n <= |p.tab| && p.Exhausted([e]) && p.Offset([e]) == -6
  {
    hide Packing.Ok, Packing.Offset, Duplicate, Fits, MinOf, MaxOf;
    OneEntry(e);
    CrowdedRoom(p, 6, e);
    var room := CrowdedTable(6);
    forall o | 0 <= o + 14 < 8
      ensures !Fits(room, 6, [e], o)
    {
      OneEntryFits(room, 6, e, o);
      assert if o + 14 < 6 then room[o + 14].lookahead >= 0 else room[o + 11].lookahead == 11;
    }
    forall o | 0 <= o + 14 < 6
      ensures !Duplicate(room, 6, [e], o)
    {
      OneEntryFits(room, 6, e, o);
    }
    assert p.Exhausted([e]);
    FoundPlace(p, [e]);
  }

  lemma CrowdedClash()
    ensures ClashAt(CrowdedStates(), CrowdedOrder(), 6) && Clash(CrowdedStates())
    ensures var p := PlacedUpTo(CrowdedStates(), CrowdedOrder(), 7);
            8 in p.at && 10 in p.at && p.at[8] == p.at[10] == -6
  {
    hide Packing.Ok, Packing.Offset, Packing.Exhausted, Packing.Inserted, Numbering.Tx, SetOrder, PlacedUpTo;
    hide CrowdedUpTo;
    CrowdedFull();
    CrowdedSorted();
    CrowdedSet(6);
    CrowdedSixth();
    var v, order := CrowdedStates(), CrowdedOrder();
    var p := PlacedUpTo(v, order, 6);
    CrowdedExhausted(p.table, CrowdedEntries()[6]);
    assert PlacedUpTo(v, order, 7) == Put(v, p, 10) by { PlacedOneMore(v, order, 6); }
  }

  lemma CrowdedSixth()
    requires CrowdedUpTo(6)
    ensures var p := PlacedUpTo(CrowdedStates(), CrowdedOrder(), 6);
            && 8 in p.at && p.at[8] == -6
            && p.table.Ok() && p.table.n == 6 && p.table.tab == CrowdedTable(6)
  {
    hide PlacedUpTo, Packing.Ok, CrowdedTable;
    assert CrowdedOrder()[5] == 8;
  }

  lemma PlacedOneMore(v: Numbering, order: seq<nat>, i: nat)
    requires i < |order|
    ensures PlacedUpTo(v, order, i + 1) == Put(v, PlacedUpTo(v, order, i), order[i])
  {
    hide Put;
  }

  /** So whatever is reported for this grammar, in the state behind A, which has no action on K, the
      lookup finds what the state behind A N does on K, and the parser shifts. */
  lemma SharedOffset(t: Tables, ofst: seq<int>, offsets: map<int, map<int, int>>)
    requires Reported(CrowdedStates(), t, ofst, offsets)
    ensures CrowdedStates().Ok() && Clash(CrowdedStates()) && !Apart(CrowdedStates(), t)
    ensures |t.action| == |t.lookahead| && |t.shiftOfst| == |t.dflt| == 6
    ensures var v := CrowdedStates();
            && v.sorted[5] == 1 && TokenMove(v.g, v.rows, At(1), 11) == Error_
            && FindShiftAction(t, 5, 11) == 3 && Decode(t.c, v.sorted, 3) == Goto_(3)
  {
    hide Numbering.Ok, Numbering.Tx, SetOrder, PlacedUpTo, Clash, Apart, Reported, AsMap, Placing;
    var v := CrowdedStates();
    CrowdedOk();
    CrowdedClash();
    CrowdedSorted();
    ApartIffNoClash(v, t, ofst, offsets);
    TableSizes(v, t, ofst, offsets);
    CrowdedOffsets(t, ofst, offsets);
    ShiftOffset(v, t, ofst, offsets, 4);
    ShiftOffset(v, t, ofst, offsets, 5);
    CrowdedSet(5);
    OneEntry(CrowdedEntries()[5]);
    EntryFound(v, t, ofst, offsets, 8, 11);
    FindsHit(t, 5, 11);
    CodesOf(v, t, ofst, offsets);
  }

  lemma CodesOf(v: Numbering, t: Tables, ofst: seq<int>, offsets: map<int, map<int, int>>)
    requires Reported(v, t, ofst, offsets)
    ensures t.c == v.C()
  {
  }

  lemma CrowdedOffsets(t: Tables, ofst: seq<int>, offsets: map<int, map<int, int>>)
    requires Reported(CrowdedStates(), t, ofst, offsets) && SetOrder(CrowdedStates(), CrowdedOrder())
    ensures |ofst| == 12 && ofst[8] == ofst[10] == -6
  {
    hide Numbering.Ok, Numbering.Tx, SetOrder, PlacedUpTo, AsMap, Placing, Reported;
    var v := CrowdedStates();
    CrowdedClash();
    PlacedSomehow(v, t, ofst, offsets);
    var order :| SetOrder(v, order) && PlacedAs(v, order, ofst, offsets);
    OrderUnique(v, order, CrowdedOrder());
    forall j | 7 <= j < 12
      ensures v.Tx(CrowdedOrder()[j]) == []
    {
      CrowdedSet(j);
    }
    RestEmpty(v, CrowdedOrder(), 7, 12);
  }

  // ---------------------------------------------------------------- YY_SHIFT_COUNT

  /** The assertion of `yy_find_shift_action` holds in every emitted state if and only if the last
      of them has a token action: the offset table is cut behind the last state that has one. */
  lemma ShiftCountIff(v: Numbering, t: Tables, ofst: seq<int>, offsets: map<int, map<int, int>>)
    requires v.Ok() && Reported(v, t, ofst, offsets)
    ensures v.nxstate <= |v.sorted| && v.sorted[v.nxstate - 1] < |v.rows|
    ensures |t.shiftOfst| == v.nxstate <==> TokenCount(v.g, RowOf(v, v.nxstate - 1)) > 0
    ensures forall i | |t.shiftOfst| <= i < v.nxstate :: TokenCount(v.g, RowOf(v, i)) == 0
  {
    hide AllPlaced, Least, TableAnswers;
    forall i | 0 <= i < v.nxstate
      ensures ofst[2 * i + 0] == NO_OFFSET <==> TokenCount(v.g, RowOf(v, i)) == 0
    {
      TokensPlaced(v, t, ofst, offsets, i);
    }
  }

  lemma TokensPlaced(v: Numbering, t: Tables, ofst: seq<int>, offsets: map<int, map<int, int>>, i: nat)
    requires v.Ok() && Reported(v, t, ofst, offsets) && i < v.nxstate && i < |v.sorted| && v.sorted[i] < |v.rows|
    ensures ofst[2 * i] == NO_OFFSET <==> TokenCount(v.g, RowOf(v, i)) == 0
  {
    hide AllPlaced, Least, OffsetTable, Numbering.Tx, TokenCount, NtCount;
    SetSize(v, 2 * i);
    WherePlaced(v, t, ofst, offsets, 2 * i);
    if v.Tx(2 * i) != [] {
      TxEntry(v.Tx(2 * i));
      TokensOnly(v, i, v.Tx(2 * i)[0].lookahead);
      EntryFound(v, t, ofst, offsets, 2 * i, v.Tx(2 * i)[0].lookahead);
    }
  }

  lemma TxEntry(tx: seq<LookaheadAction>)
    requires Transaction(tx) && tx != []
    ensures tx[0].lookahead in AsMap(tx)
  {
    AsMapEntries(tx);
  }
}
