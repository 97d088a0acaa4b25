/** The "acttab" module: packing the transactions of all states into one array, `acttab_action`
    and `acttab_insert`. */
module ActTabs {

  datatype LookaheadAction = LookaheadAction(lookahead: int, action: int)

  const UNUSED: LookaheadAction := LookaheadAction(-1, -1)

  // ---------------------------------------------------------------- specification

  /** A transaction: distinct, non-negative lookaheads. */
  ghost predicate Transaction(tx: seq<LookaheadAction>) {
    && (forall j | 0 <= j < |tx| :: tx[j].lookahead >= 0)
    && (forall i, j | 0 <= i < j < |tx| :: tx[i].lookahead != tx[j].lookahead)
  }

  /** The transaction as a map from lookahead to action. */
  ghost function AsMap(tx: seq<LookaheadAction>): (m: map<int, int>)
  {
    if tx == [] then map[]
    else AsMap(tx[..|tx| - 1])[tx[|tx| - 1].lookahead := tx[|tx| - 1].action]
  }

  lemma {:induction false} AsMapEntries(tx: seq<LookaheadAction>)
    requires Transaction(tx)
    ensures forall j | 0 <= j < |tx| :: tx[j].lookahead in AsMap(tx) && AsMap(tx)[tx[j].lookahead] == tx[j].action
    ensures forall l | l in AsMap(tx) :: exists j :: 0 <= j < |tx| && tx[j].lookahead == l
  {
    if tx != [] {
      var n := |tx| - 1;
      AsMapEntries(tx[..n]);
      assert forall j | 0 <= j < n :: tx[..n][j] == tx[j];
    }
  }

  /** What a lookup at offset o finds for a lookahead: the test the generated parser makes. */
  ghost predicate Hits(tab: seq<LookaheadAction>, n: nat, o: int, l: int)
    requires n <= |tab|
  {
    0 <= o + l < n && tab[o + l].lookahead == l
  }

  /** Exactness of one offset: it answers for precisely the lookaheads of its transaction. */
  ghost predicate Answers(tab: seq<LookaheadAction>, n: nat, o: int, m: map<int, int>)
    requires n <= |tab|
  {
    forall l | l >= 0 :: (Hits(tab, n, o, l) <==> l in m) && (l in m ==> tab[o + l].action == m[l])
  }

  /** Ownership.  A filled slot k with lookahead l belongs to the one offset k - l, and `offs`
      records the transaction of every offset returned so far. */
  ghost predicate Packed(tab: seq<LookaheadAction>, n: nat, offs: map<int, map<int, int>>) {
    && UnusedBehind(tab, n)
    && AllOwned(tab, n, offs)
    && AllEntries(tab, n, offs)
    && forall o | o in offs :: exists l :: l in offs[o]
  }

  /** Slots from n on are empty and slot n - 1 is filled. */
  ghost predicate UnusedBehind(tab: seq<LookaheadAction>, n: nat) {
    && n <= |tab|
    && (forall k | 0 <= k < |tab| :: tab[k].lookahead >= -1)
    && (forall k | n <= k < |tab| :: tab[k].lookahead == -1)
    && (n > 0 ==> tab[n - 1].lookahead >= 0)
  }

  ghost predicate AllOwned(tab: seq<LookaheadAction>, n: nat, offs: map<int, map<int, int>>)
    requires n <= |tab|
  {
    forall k {:trigger HasOwner(tab, offs, k)} | 0 <= k < n && tab[k].lookahead >= 0 :: HasOwner(tab, offs, k)
  }

  ghost predicate AllEntries(tab: seq<LookaheadAction>, n: nat, offs: map<int, map<int, int>>)
    requires n <= |tab|
  {
    forall o, l {:trigger IsEntry(tab, n, offs[o], o, l)} | o in offs && l in offs[o] :: IsEntry(tab, n, offs[o], o, l)
  }

  ghost predicate HasOwner(tab: seq<LookaheadAction>, offs: map<int, map<int, int>>, k: int)
    requires 0 <= k < |tab|
  {
    var o := k - tab[k].lookahead;
    o in offs && tab[k].lookahead in offs[o]
  }

  ghost predicate IsEntry(tab: seq<LookaheadAction>, n: nat, m: map<int, int>, o: int, l: int)
    requires n <= |tab| && l in m
  {
    l >= 0 && 0 <= o + l < n && tab[o + l] == LookaheadAction(l, m[l])
  }

  /** Hence every offset ever returned is exact. */
  lemma PackedAnswers(tab: seq<LookaheadAction>, n: nat, offs: map<int, map<int, int>>, o: int)
    requires Packed(tab, n, offs) && o in offs
    ensures Answers(tab, n, o, offs[o])
  {
    forall l | l >= 0
      ensures (Hits(tab, n, o, l) <==> l in offs[o]) && (l in offs[o] ==> tab[o + l].action == offs[o][l])
    {
      AnswersAt(tab, n, offs, o, l);
    }
  }

  lemma AnswersAt(tab: seq<LookaheadAction>, n: nat, offs: map<int, map<int, int>>, o: int, l: int)
    requires n <= |tab| && AllOwned(tab, n, offs) && AllEntries(tab, n, offs) && o in offs && l >= 0
    ensures Hits(tab, n, o, l) <==> l in offs[o]
    ensures l in offs[o] ==> tab[o + l].action == offs[o][l]
  {
    if l in offs[o] { assert IsEntry(tab, n, offs[o], o, l); }
    if Hits(tab, n, o, l) {
      assert HasOwner(tab, offs, o + l);
      assert (o + l) - l == o;
    }
  }

  // ---------------------------------------------------------------- where a transaction may go

  /** The slots that belong to offset o. */
  ghost function Owned(tab: seq<LookaheadAction>, n: nat, o: int): set<int>
    requires n <= |tab|
  {
    set k | 0 <= k < n && tab[k].lookahead >= 0 && tab[k].lookahead == k - o
  }

  ghost function Slots(tx: seq<LookaheadAction>, o: int): set<int> {
    set j | 0 <= j < |tx| :: tx[j].lookahead + o
  }

  ghost predicate Matches(tab: seq<LookaheadAction>, n: nat, tx: seq<LookaheadAction>, o: int)
    requires n <= |tab|
  {
    forall j | 0 <= j < |tx| :: 0 <= tx[j].lookahead + o < n && tab[tx[j].lookahead + o] == tx[j]
  }

  /** Offset o already holds exactly this transaction. */
  ghost predicate Duplicate(tab: seq<LookaheadAction>, n: nat, tx: seq<LookaheadAction>, o: int)
    requires n <= |tab|
  {
    Matches(tab, n, tx, o) && Owned(tab, n, o) == Slots(tx, o)
  }

  /** The transaction fits into unused slots at offset o, and no slot belongs to o. */
  ghost predicate Fits(tab: seq<LookaheadAction>, n: nat, tx: seq<LookaheadAction>, o: int)
    requires n <= |tab|
  {
    && (forall j | 0 <= j < |tx| :: 0 <= tx[j].lookahead + o < |tab| && tab[tx[j].lookahead + o].lookahead < 0)
    && (forall k | 0 <= k < n :: tab[k].lookahead != k - o)
  }

  lemma LastSlot(tx: seq<LookaheadAction>, o: int)
    requires Transaction(tx) && tx != []
    ensures var n := |tx| - 1;
            && Slots(tx, o) == Slots(tx[..n], o) + {tx[n].lookahead + o}
            && tx[n].lookahead + o !in Slots(tx[..n], o)
  {
    var n := |tx| - 1;
    assert forall j | 0 <= j < n :: tx[..n][j] == tx[j];
  }

  lemma {:induction false} SlotsCount(tx: seq<LookaheadAction>, o: int)
    requires Transaction(tx)
    ensures |Slots(tx, o)| == |tx|
  {
    if tx == [] {
      assert Slots(tx, o) == {};
    } else {
      var n := |tx| - 1;
      SlotsCount(tx[..n], o);
      LastSlot(tx, o);
    }
  }

  lemma MatchesAreOwned(tab: seq<LookaheadAction>, n: nat, tx: seq<LookaheadAction>, o: int)
    requires n <= |tab| && Transaction(tx) && Matches(tab, n, tx, o)
    ensures Slots(tx, o) <= Owned(tab, n, o)
    ensures |Owned(tab, n, o)| == |tx| <==> Duplicate(tab, n, tx, o)
  {
    SlotsCount(tx, o);
    if |Owned(tab, n, o)| == |tx| {
      SameSize(Slots(tx, o), Owned(tab, n, o));
    }
  }

  lemma {:induction false} SameSize<T>(a: set<T>, b: set<T>)
    requires a <= b && |a| == |b|
    ensures a == b
  {
    if a != b {
      var x :| x in b && x !in a;
      SubsetSize(a, b - {x});
    }
  }

  lemma {:induction false} SubsetSize<T>(a: set<T>, b: set<T>)
    requires a <= b
    ensures |a| <= |b|
  {
    if a != {} {
      var x :| x in a;
      SubsetSize(a - {x}, b - {x});
    }
  }

  /** Reusing an offset changes nothing. */
  lemma DuplicateIsKnown(tab: seq<LookaheadAction>, n: nat, offs: map<int, map<int, int>>, tx: seq<LookaheadAction>,
                         o: int)
    requires Packed(tab, n, offs) && Transaction(tx) && tx != [] && Duplicate(tab, n, tx, o)
    ensures o in offs && offs[o] == AsMap(tx)
  {
    AsMapEntries(tx);
    SlotOwner(tab, n, offs, tx, o, 0);
    forall l
      ensures l in offs[o] <==> l in AsMap(tx)
      ensures l in offs[o] ==> offs[o][l] == AsMap(tx)[l]
    {
      if l in offs[o] {
        var j := EntrySlot(tab, n, offs, tx, o, l);
      }
      if l in AsMap(tx) {
        var j :| 0 <= j < |tx| && tx[j].lookahead == l;
        SlotOwner(tab, n, offs, tx, o, j);
      }
    }
  }

  lemma SlotOwner(tab: seq<LookaheadAction>, n: nat, offs: map<int, map<int, int>>, tx: seq<LookaheadAction>, o: int,
                  j: nat)
    requires n <= |tab| && AllOwned(tab, n, offs) && Transaction(tx) && Matches(tab, n, tx, o) && j < |tx|
    ensures o in offs && tx[j].lookahead in offs[o]
  {
    var k := tx[j].lookahead + o;
    assert tab[k] == tx[j];
    assert HasOwner(tab, offs, k);
  }

  lemma EntrySlot(tab: seq<LookaheadAction>, n: nat, offs: map<int, map<int, int>>, tx: seq<LookaheadAction>, o: int,
                  l: int)
    returns (j: nat)
    requires n <= |tab| && AllEntries(tab, n, offs) && Duplicate(tab, n, tx, o) && o in offs && l in offs[o]
    ensures j < |tx| && tx[j] == LookaheadAction(l, offs[o][l])
  {
    assert IsEntry(tab, n, offs[o], o, l);
    assert l + o in Owned(tab, n, o);
    j :| 0 <= j < |tx| && tx[j].lookahead + o == l + o;
  }

  /** A fitting offset is a new one. */
  lemma FitsIsFree(tab: seq<LookaheadAction>, n: nat, offs: map<int, map<int, int>>, tx: seq<LookaheadAction>, o: int)
    requires Packed(tab, n, offs) && Fits(tab, n, tx, o)
    ensures o !in offs
  {
    if o in offs {
      var l :| l in offs[o];
      EntryAt(tab, n, offs, o, l);
    }
  }

  lemma EntryAt(tab: seq<LookaheadAction>, n: nat, offs: map<int, map<int, int>>, o: int, l: int)
    requires n <= |tab| && AllEntries(tab, n, offs) && o in offs && l in offs[o]
    ensures l >= 0 && 0 <= o + l < n && tab[o + l] == LookaheadAction(l, offs[o][l])
  {
    assert IsEntry(tab, n, offs[o], o, l);
  }

  // ---------------------------------------------------------------- writing a transaction

  /** The table with the entries of m put in at offset o. */
  ghost function Write(tab: seq<LookaheadAction>, m: map<int, int>, o: int): (r: seq<LookaheadAction>)
    ensures |r| == |tab|
  {
    seq(|tab|, k requires 0 <= k < |tab| => if k - o in m then LookaheadAction(k - o, m[k - o]) else tab[k])
  }

  /** One past the last used slot. */
  ghost function EndOf(n: nat, tx: seq<LookaheadAction>, o: int): (r: nat)
    ensures r >= n
  {
    if tx == [] then n
    else
      var m := EndOf(n, tx[..|tx| - 1], o);
      var k := tx[|tx| - 1].lookahead + o;
      if k >= m then k + 1 else m
  }

  lemma {:induction false} EndOfBounds(n: nat, tx: seq<LookaheadAction>, o: int)
    requires forall j | 0 <= j < |tx| :: 0 <= tx[j].lookahead + o
    ensures forall j | 0 <= j < |tx| :: tx[j].lookahead + o < EndOf(n, tx, o)
    ensures EndOf(n, tx, o) == n || exists j | 0 <= j < |tx| :: tx[j].lookahead + o == EndOf(n, tx, o) - 1
  {
    if tx != [] {
      var m := |tx| - 1;
      var init := tx[..m];
      assert forall j | 0 <= j < m :: init[j] == tx[j];
      EndOfBounds(n, init, o);
      if EndOf(n, tx, o) != n {
        if tx[m].lookahead + o < EndOf(n, init, o) {
          var j :| 0 <= j < |init| && init[j].lookahead + o == EndOf(n, init, o) - 1;
          assert tx[j].lookahead + o == EndOf(n, tx, o) - 1;
        } else {
          assert tx[m].lookahead + o == EndOf(n, tx, o) - 1;
        }
      }
    }
  }

  ghost predicate InRoom(tab: seq<LookaheadAction>, tx: seq<LookaheadAction>, o: int) {
    forall j | 0 <= j < |tx| :: 0 <= tx[j].lookahead + o < |tab|
  }

  ghost predicate Unfilled(tab: seq<LookaheadAction>, tx: seq<LookaheadAction>, o: int)
    requires InRoom(tab, tx, o)
  {
    forall j | 0 <= j < |tx| :: tab[tx[j].lookahead + o].lookahead < 0
  }

  /** The transactions by offset once m is written at offset o. */
  ghost function Merged(offs: map<int, map<int, int>>, o: int, m: map<int, int>): map<int, map<int, int>> {
    offs[o := if o in offs then offs[o] + m else m]
  }

  /** Writing into unused slots leaves every slot owned: a new offset by the new transaction, an
      offset in use by both of its transactions. */
  lemma WritePacked(tab: seq<LookaheadAction>, n: nat, offs: map<int, map<int, int>>, tx: seq<LookaheadAction>, o: int)
    requires Packed(tab, n, offs) && Transaction(tx) && tx != []
    requires InRoom(tab, tx, o) && Unfilled(tab, tx, o)
    ensures Packed(Write(tab, AsMap(tx), o), EndOf(n, tx, o), Merged(offs, o, AsMap(tx)))
  {
    hide AsMap, Write, EndOf, HasOwner, IsEntry, InRoom, Unfilled, Transaction;
    var tab', n', offs' := Write(tab, AsMap(tx), o), EndOf(n, tx, o), Merged(offs, o, AsMap(tx));
    WriteUnused(tab, n, tx, o);
    AsMapEntries(tx);
    assert tx[0].lookahead in AsMap(tx);
    assert AllOwned(tab', n', offs') by {
      forall k | 0 <= k < n' && tab'[k].lookahead >= 0
        ensures HasOwner(tab', offs', k)
      {
        WriteOwner(tab, n, offs, AsMap(tx), o, k);
      }
    }
    assert AllEntries(tab', n', offs') by {
      forall p, l | p in offs' && l in offs'[p]
        ensures IsEntry(tab', n', offs'[p], p, l)
      {
        if p == o && l in AsMap(tx) {
          WriteNewEntry(tab, n, tx, o, l);
          SameEntry(tab', n', AsMap(tx), offs'[p], p, l);
        } else {
          WriteOldEntry(tab, n, offs, tx, o, p, l);
          SameEntry(tab', n', offs[p], offs'[p], p, l);
        }
      }
    }
    forall p | p in offs'
      ensures exists l :: l in offs'[p]
    {
      if p == o {
        assert tx[0].lookahead in offs'[p];
      } else {
        var l :| l in offs[p];
        assert l in offs'[p];
      }
    }
  }

  lemma SameEntry(tab: seq<LookaheadAction>, n: nat, m: map<int, int>, m': map<int, int>, o: int, l: int)
    requires n <= |tab| && l in m && l in m' && m[l] == m'[l] && IsEntry(tab, n, m, o, l)
    ensures IsEntry(tab, n, m', o, l)
  {
  }

  lemma WriteUnused(tab: seq<LookaheadAction>, n: nat, tx: seq<LookaheadAction>, o: int)
    requires UnusedBehind(tab, n) && Transaction(tx) && InRoom(tab, tx, o)
    ensures UnusedBehind(Write(tab, AsMap(tx), o), EndOf(n, tx, o))
  {
    hide AsMap, Write, EndOf;
    var tab', n' := Write(tab, AsMap(tx), o), EndOf(n, tx, o);
    EndOfBounds(n, tx, o);
    forall k | 0 <= k < |tab|
      ensures tab'[k].lookahead >= -1
      ensures k >= n' ==> tab'[k].lookahead == -1
    {
      WrittenSlot(tab, n, tx, o, k);
    }
    if n' != n {
      var j :| 0 <= j < |tx| && tx[j].lookahead + o == n' - 1;
      WrittenSlot(tab, n, tx, o, n' - 1);
      AsMapEntries(tx);
      assert n' - 1 - o == tx[j].lookahead;
    } else if n > 0 {
      WrittenSlot(tab, n, tx, o, n - 1);
    }
  }

  lemma WrittenSlot(tab: seq<LookaheadAction>, n: nat, tx: seq<LookaheadAction>, o: int, k: nat)
    requires Transaction(tx) && InRoom(tab, tx, o) && k < |tab|
    ensures var e := Write(tab, AsMap(tx), o)[k];
            if k - o in AsMap(tx) then e.lookahead >= 0 && k < EndOf(n, tx, o) else e == tab[k]
  {
    AsMapEntries(tx);
    EndOfBounds(n, tx, o);
    if k - o in AsMap(tx) {
      var j :| 0 <= j < |tx| && tx[j].lookahead == k - o;
      assert tx[j].lookahead >= 0 && tx[j].lookahead + o < EndOf(n, tx, o);
    }
  }

  lemma WriteOwner(tab: seq<LookaheadAction>, n: nat, offs: map<int, map<int, int>>, m: map<int, int>, o: int, k: nat)
    requires UnusedBehind(tab, n) && AllOwned(tab, n, offs)
    requires k < |tab| && Write(tab, m, o)[k].lookahead >= 0
    ensures HasOwner(Write(tab, m, o), Merged(offs, o, m), k)
  {
    if k - o !in m {
      assert HasOwner(tab, offs, k);
    }
  }

  lemma WriteNewEntry(tab: seq<LookaheadAction>, n: nat, tx: seq<LookaheadAction>, o: int, l: int)
    requires UnusedBehind(tab, n) && Transaction(tx) && InRoom(tab, tx, o) && l in AsMap(tx)
    ensures EndOf(n, tx, o) <= |tab|
    ensures IsEntry(Write(tab, AsMap(tx), o), EndOf(n, tx, o), AsMap(tx), o, l)
  {
    WriteUnused(tab, n, tx, o);
    EndOfBounds(n, tx, o);
    AsMapEntries(tx);
    var j :| 0 <= j < |tx| && tx[j].lookahead == l;
    assert 0 <= tx[j].lookahead + o < |tab|;
  }

  lemma WriteOldEntry(tab: seq<LookaheadAction>, n: nat, offs: map<int, map<int, int>>, tx: seq<LookaheadAction>,
                      o: int,
                      p: int, l: int)
    requires UnusedBehind(tab, n) && AllEntries(tab, n, offs) && Transaction(tx)
    requires InRoom(tab, tx, o) && Unfilled(tab, tx, o) && p in offs && l in offs[p]
    ensures EndOf(n, tx, o) <= |tab|
    ensures IsEntry(Write(tab, AsMap(tx), o), EndOf(n, tx, o), offs[p], p, l)
  {
    WriteUnused(tab, n, tx, o);
    EntryAt(tab, n, offs, p, l);
    UnfilledKeys(tab, tx, o);
  }

  lemma UnfilledKeys(tab: seq<LookaheadAction>, tx: seq<LookaheadAction>, o: int)
    requires Transaction(tx) && InRoom(tab, tx, o) && Unfilled(tab, tx, o)
    ensures forall k | 0 <= k < |tab| && k - o in AsMap(tx) :: tab[k].lookahead < 0
  {
    AsMapEntries(tx);
    forall k | 0 <= k < |tab| && k - o in AsMap(tx)
      ensures tab[k].lookahead < 0
    {
      var j :| 0 <= j < |tx| && tx[j].lookahead == k - o;
      assert tab[tx[j].lookahead + o].lookahead < 0;
    }
  }

  /** Writing back what is there. */
  lemma WriteSame(tab: seq<LookaheadAction>, n: nat, tx: seq<LookaheadAction>, o: int)
    requires n <= |tab| && Transaction(tx) && Matches(tab, n, tx, o)
    ensures Write(tab, AsMap(tx), o) == tab
    ensures EndOf(n, tx, o) == n
  {
    hide AsMap, EndOf;
    AsMapEntries(tx);
    EndOfBounds(n, tx, o);
    forall k | 0 <= k < |tab|
      ensures Write(tab, AsMap(tx), o)[k] == tab[k]
    {
      if k - o in AsMap(tx) {
        var j :| 0 <= j < |tx| && tx[j].lookahead == k - o;
        assert tx[j].lookahead + o == k;
      }
    }
  }

  // ---------------------------------------------------------------- the search for a hole

  /** No slot in the range of the search fits. */
  ghost predicate NoHole(tab: seq<LookaheadAction>, n: nat, tx: seq<LookaheadAction>, mn: int, mx: int)
    requires n <= |tab|
  {
    forall o | 0 <= o + mn < |tab| - mx :: !Fits(tab, n, tx, o)
  }

  /** The lookaheads of a transaction lie between mn and mx, which both occur. */
  ghost predicate Bounds(tx: seq<LookaheadAction>, mn: int, mx: int) {
    && (forall j | 0 <= j < |tx| :: mn <= tx[j].lookahead <= mx)
    && (exists j :: 0 <= j < |tx| && tx[j].lookahead == mn)
    && (exists j :: 0 <= j < |tx| && tx[j].lookahead == mx)
  }

  /** Appending fits no later than mn slots behind the end. */
  lemma AppendFits(tab: seq<LookaheadAction>, n: nat, tx: seq<LookaheadAction>, mn: int, mx: int, i: int)
    requires UnusedBehind(tab, n) && Transaction(tx) && Bounds(tx, mn, mx)
    requires n <= i < |tab| - mx && (n == 0 || n + mn <= i)
    ensures Fits(tab, n, tx, i - mn)
  {
    forall j | 0 <= j < |tx|
      ensures 0 <= tx[j].lookahead + (i - mn) < |tab| && tab[tx[j].lookahead + (i - mn)].lookahead < 0
    {
      assert mn <= tx[j].lookahead <= mx;
      var k := tx[j].lookahead + (i - mn);
      assert i <= k < |tab|;
    }
  }

  /** When the search runs off its end the table is not empty, the least lookahead is at least 2,
      and the place it ends at is behind the used slots with room for the whole transaction. */
  lemma ExhaustedSearch(tab: seq<LookaheadAction>, n: nat, tx: seq<LookaheadAction>, mn: int, mx: int)
    requires UnusedBehind(tab, n) && Transaction(tx) && Bounds(tx, mn, mx)
    requires n + mx + 1 < |tab| && NoHole(tab, n, tx, mn, mx)
    ensures n > 0 && mn >= 2 && |tab| - mx <= n + mn
    ensures var o := |tab| - mx - mn; InRoom(tab, tx, o) && Unfilled(tab, tx, o)
  {
    var j :| 0 <= j < |tx| && tx[j].lookahead == mn;
    if n == 0 {
      AppendFits(tab, n, tx, mn, mx, 0);
    } else if n + mn < |tab| - mx {
      AppendFits(tab, n, tx, mn, mx, n + mn);
    }
    var o := |tab| - mx - mn;
    forall j | 0 <= j < |tx|
      ensures n <= tx[j].lookahead + o < |tab|
    {
      assert mn <= tx[j].lookahead <= mx;
    }
  }

  /** Into unused slots a transaction is written exactly if and only if its offset is free;
      otherwise the transaction that had the offset is no longer looked up exactly either. */
  lemma WriteExactIff(tab: seq<LookaheadAction>, n: nat, offs: map<int, map<int, int>>, tx: seq<LookaheadAction>,
                      o: int)
    requires Packed(tab, n, offs) && Transaction(tx) && tx != []
    requires InRoom(tab, tx, o) && Unfilled(tab, tx, o)
    ensures EndOf(n, tx, o) <= |tab|
    ensures var tab', n' := Write(tab, AsMap(tx), o), EndOf(n, tx, o);
            && (o !in offs <==> Answers(tab', n', o, AsMap(tx)))
            && (o in offs ==> !Answers(tab', n', o, offs[o]))
  {
    hide Packed, AsMap, Write, EndOf, InRoom, Unfilled, Transaction, Answers;
    var tab', n', m := Write(tab, AsMap(tx), o), EndOf(n, tx, o), AsMap(tx);
    WritePacked(tab, n, offs, tx, o);
    PackedUnused(tab', n', Merged(offs, o, m));
    PackedAnswers(tab', n', Merged(offs, o, m), o);
    if o in offs {
      KeysDisjoint(tab, n, offs, tx, o);
      SomeKeys(tab, n, offs, tx, o);
      AnswersDiffer(tab', n', o, offs[o] + m, m);
      AnswersDiffer(tab', n', o, offs[o] + m, offs[o]);
    }
  }

  lemma SomeKeys(tab: seq<LookaheadAction>, n: nat, offs: map<int, map<int, int>>, tx: seq<LookaheadAction>, o: int)
    requires Packed(tab, n, offs) && Transaction(tx) && tx != [] && o in offs
    ensures exists l :: l in offs[o] && l >= 0
    ensures exists l :: l in AsMap(tx) && l >= 0
  {
    var l :| l in offs[o];
    EntryAt(tab, n, offs, o, l);
    AsMapEntries(tx);
    assert tx[0].lookahead in AsMap(tx);
  }

  /** An offset answers for one set of lookaheads only. */
  lemma AnswersDiffer(tab: seq<LookaheadAction>, n: nat, o: int, m: map<int, int>, m': map<int, int>)
    requires n <= |tab| && Answers(tab, n, o, m)
    requires exists l :: l in m && l !in m' && l >= 0
    ensures !Answers(tab, n, o, m')
  {
    var l :| l in m && l !in m' && l >= 0;
    assert Hits(tab, n, o, l);
  }

  lemma NotAnEntry(tab: seq<LookaheadAction>, n: nat, offs: map<int, map<int, int>>, o: int, l: int)
    requires n <= |tab| && AllEntries(tab, n, offs) && o in offs
    requires 0 <= o + l < |tab| && tab[o + l].lookahead < 0
    ensures l !in offs[o]
  {
    if l in offs[o] { EntryAt(tab, n, offs, o, l); }
  }

  // ---------------------------------------------------------------- where the search ends

  ghost function MinOf(tx: seq<LookaheadAction>): int
    requires tx != []
  {
    var e := tx[|tx| - 1].lookahead;
    if |tx| == 1 || e < MinOf(tx[..|tx| - 1]) then e else MinOf(tx[..|tx| - 1])
  }

  ghost function MaxOf(tx: seq<LookaheadAction>): int
    requires tx != []
  {
    var e := tx[|tx| - 1].lookahead;
    if |tx| == 1 || e > MaxOf(tx[..|tx| - 1]) then e else MaxOf(tx[..|tx| - 1])
  }

  lemma {:induction false} BoundsOf(tx: seq<LookaheadAction>)
    requires tx != []
    ensures Bounds(tx, MinOf(tx), MaxOf(tx))
  {
    var n := |tx| - 1;
    var init := tx[..n];
    if n > 0 {
      BoundsOf(init);
      var a :| 0 <= a < n && init[a].lookahead == MinOf(init);
      var b :| 0 <= b < n && init[b].lookahead == MaxOf(init);
      assert tx[a].lookahead == MinOf(init) && tx[b].lookahead == MaxOf(init);
      forall j | 0 <= j < |tx|
        ensures MinOf(tx) <= tx[j].lookahead <= MaxOf(tx)
      {
        if j < n { assert tx[j] == init[j]; }
      }
    }
    assert tx[n].lookahead == tx[n].lookahead;
  }

  lemma BoundsKnown(tx: seq<LookaheadAction>, mn: int, mx: int)
    requires tx != [] && Bounds(tx, mn, mx)
    ensures mn == MinOf(tx) && mx == MaxOf(tx)
  {
    BoundsOf(tx);
  }

  /** The size of the table after making room. */
  function Reserved(alloc: nat, n: nat, mx: int): int {
    if n + mx + 1 >= alloc then n + mx + 1 + alloc + 20 else alloc
  }

  /** The table with room for a transaction behind everything used. */
  ghost function Grown(tab: seq<LookaheadAction>, n: nat, mx: int): (r: seq<LookaheadAction>)
    ensures |r| >= |tab|
  {
    var size := Reserved(|tab|, n, mx);
    tab + if size > |tab| then seq(size - |tab|, _ => UNUSED) else []
  }

  /** The highest slot up to i at which the least lookahead of a duplicate is, or -1. */
  ghost function LastDuplicate(tab: seq<LookaheadAction>, n: nat, tx: seq<LookaheadAction>, mn: int, i: int): (r: int)
    requires n <= |tab| && i >= -1
    ensures -1 <= r <= i
    ensures r >= 0 ==> Duplicate(tab, n, tx, r - mn)
    ensures forall o | r < o + mn <= i :: !Duplicate(tab, n, tx, o)
    decreases i + 1
  {
    if i < 0 || Duplicate(tab, n, tx, i - mn) then i else LastDuplicate(tab, n, tx, mn, i - 1)
  }

  /** The lowest slot from i on for the least lookahead with which the transaction fits, or else `end`. */
  ghost function FirstHole(tab: seq<LookaheadAction>, n: nat, tx: seq<LookaheadAction>, mn: int, end: int,
                           i: int): (r: int)
    requires n <= |tab| && i <= end
    ensures i <= r <= end
    ensures r < end ==> Fits(tab, n, tx, r - mn)
    ensures forall o | i <= o + mn < r :: !Fits(tab, n, tx, o)
    decreases end - i
  {
    if i == end || Fits(tab, n, tx, i - mn) then i else FirstHole(tab, n, tx, mn, end, i + 1)
  }

  /** All there is to know of the table: its slots, the number of used ones, and the transaction
      behind every offset returned so far. */
  datatype Packing = Packing(tab: seq<LookaheadAction>, n: nat, offsets: map<int, map<int, int>>) {

    ghost predicate Ok() { Packed(tab, n, offsets) }

    ghost function Room(tx: seq<LookaheadAction>): (r: seq<LookaheadAction>)
      requires tx != []
      ensures |r| >= |tab|
    {
      Grown(tab, n, MaxOf(tx))
    }

    /** Where `acttab_insert` puts a transaction: at the highest offset that already has exactly this
        transaction, else at the lowest that it fits, else where the search ends. */
    ghost function Offset(tx: seq<LookaheadAction>): int
      requires tx != [] && n <= |tab|
    {
      var d := LastDuplicate(Room(tx), n, tx, MinOf(tx), n - 1);
      (if d >= 0 then d else HoleFrom(tx)) - MinOf(tx)
    }

    ghost function HoleFrom(tx: seq<LookaheadAction>): int
      requires tx != [] && n <= |tab|
    {
      if MaxOf(tx) > |Room(tx)| then 0 else FirstHole(Room(tx), n, tx, MinOf(tx), |Room(tx)| - MaxOf(tx), 0)
    }

    /** Neither is there a duplicate nor a hole. */
    ghost predicate Exhausted(tx: seq<LookaheadAction>)
      requires tx != [] && n <= |tab|
    {
      && (forall o | 0 <= o + MinOf(tx) < n :: !Duplicate(Room(tx), n, tx, o))
      && NoHole(Room(tx), n, tx, MinOf(tx), MaxOf(tx))
    }

    /** The table after the insertion. */
    ghost function Inserted(tx: seq<LookaheadAction>): Packing
      requires tx != [] && n <= |tab|
    {
      Packing(Write(Room(tx), AsMap(tx), Offset(tx)), EndOf(n, tx, Offset(tx)), Merged(offsets, Offset(tx), AsMap(tx)))
    }
  }

  lemma Used(p: Packing)
    requires p.Ok()
    ensures p.n <= |p.tab|
  {
  }

  lemma RoomOk(p: Packing, tx: seq<LookaheadAction>)
    requires p.Ok() && Transaction(tx) && tx != []
    ensures Packed(p.Room(tx), p.n, p.offsets) && UnusedBehind(p.Room(tx), p.n) && p.n + MaxOf(tx) + 1 < |p.Room(tx)|
    ensures Bounds(tx, MinOf(tx), MaxOf(tx)) && 0 <= MinOf(tx) <= MaxOf(tx) && p.n <= |p.tab|
  {
    BoundsOf(tx);
    var j :| 0 <= j < |tx| && tx[j].lookahead == MinOf(tx);
    assert tx[j].lookahead <= MaxOf(tx);
    assert UnusedBehind(p.tab, p.n);
    GrownPacked(p.tab, p.Room(tx), p.n, p.offsets);
  }

  /** What the place found means: the highest duplicate, else the lowest hole, else the place behind the
      range of the search. */
  lemma FoundPlace(p: Packing, tx: seq<LookaheadAction>)
    requires p.Ok() && Transaction(tx) && tx != []
    ensures p.n <= |p.tab|
    ensures var o, mn, mx := p.Offset(tx), MinOf(tx), MaxOf(tx);
            if p.Exhausted(tx) then
              p.n > 0 && mn >= 2 && o == |p.Room(tx)| - mx - mn && |p.Room(tx)| <= p.n + mn + mx
            else if Duplicate(p.Room(tx), p.n, tx, o) then
              0 <= o + mn < p.n && forall o' | o < o' && 0 <= o' + mn < p.n :: !Duplicate(p.Room(tx), p.n, tx, o')
            else
              && Fits(p.Room(tx), p.n, tx, o)
              && (forall o' | 0 <= o' + mn < p.n :: !Duplicate(p.Room(tx), p.n, tx, o'))
              && forall o' | 0 <= o' + mn && o' < o :: !Fits(p.Room(tx), p.n, tx, o')
  {
    hide Packed, Packing.Ok, Duplicate, Fits, Transaction, Bounds, Packing.Room, UnusedBehind, InRoom, Unfilled;
    RoomOk(p, tx);
    var room, mn, mx := p.Room(tx), MinOf(tx), MaxOf(tx);
    var d := LastDuplicate(room, p.n, tx, mn, p.n - 1);
    if d < 0 {
      var i := FirstHole(room, p.n, tx, mn, |room| - mx, 0);
      assert p.Offset(tx) == i - mn;
      if p.Exhausted(tx) {
        assert i == |room| - mx;
        ExhaustedSearch(room, p.n, tx, mn, mx);
      } else {
        assert i < |room| - mx;
        FitsNotDuplicate(room, p.n, tx, i - mn);
      }
    }
  }

  /** Inserting keeps the table packed; the offset answers for exactly the transaction unless the
      search was exhausted at an offset in use, which then holds both of its transactions. */
  lemma InsertedOk(p: Packing, tx: seq<LookaheadAction>)
    requires p.Ok() && Transaction(tx) && tx != []
    ensures p.n <= |p.tab| && p.Inserted(tx).Ok()
    ensures Placed(p.Room(tx), p.n, p.offsets, tx, p.Offset(tx), p.Exhausted(tx))
  {
    hide Packed, Duplicate, Fits, Transaction, Bounds, UnusedBehind, InRoom, Unfilled, Write, EndOf, AsMap, Answers;
    hide Merged, Packing.Room, Packing.Offset;
    Used(p);
    RoomOk(p, tx);
    FoundPlace(p, tx);
    var room, o := p.Room(tx), p.Offset(tx);
    if p.Exhausted(tx) {
      ExhaustedSearch(room, p.n, tx, MinOf(tx), MaxOf(tx));
      InsertNew(room, p.n, p.offsets, tx, o);
    } else if Duplicate(room, p.n, tx, o) {
      InsertKnown(room, p.n, p.offsets, tx, o);
    } else {
      FitsUnfilled(room, p.n, tx, o);
      FitsIsFree(room, p.n, p.offsets, tx, o);
      InsertNew(room, p.n, p.offsets, tx, o);
    }
  }

  lemma FitsNotDuplicate(tab: seq<LookaheadAction>, n: nat, tx: seq<LookaheadAction>, o: int)
    requires n <= |tab| && Transaction(tx) && tx != [] && Fits(tab, n, tx, o)
    ensures !Duplicate(tab, n, tx, o)
  {
    assert tab[tx[0].lookahead + o].lookahead < 0;
  }

  /** A longer table. */
  lemma GrownPacked(tab: seq<LookaheadAction>, tab': seq<LookaheadAction>, n: nat, offs: map<int, map<int, int>>)
    requires Packed(tab, n, offs) && |tab| <= |tab'|
    requires forall k | 0 <= k < |tab| :: tab'[k] == tab[k]
    requires forall k | |tab| <= k < |tab'| :: tab'[k] == UNUSED
    ensures Packed(tab', n, offs)
  {
    assert UnusedBehind(tab, n);
    assert UnusedBehind(tab', n);
    hide UnusedBehind;
    assert AllOwned(tab', n, offs) by {
      forall k | 0 <= k < n && tab'[k].lookahead >= 0
        ensures HasOwner(tab', offs, k)
      {
        assert HasOwner(tab, offs, k);
      }
    }
    hide AllOwned, HasOwner;
    forall o, l | o in offs && l in offs[o]
      ensures IsEntry(tab', n, offs[o], o, l)
    {
      assert IsEntry(tab, n, offs[o], o, l);
    }
  }

  /** Transactions of one entry. */
  lemma OneEntry(e: LookaheadAction)
    requires e.lookahead >= 0
    ensures Transaction([e]) && MinOf([e]) == MaxOf([e]) == e.lookahead && AsMap([e]) == map[e.lookahead := e.action]
  {
    assert [e][..0] == [];
  }

  lemma OneEntryFits(tab: seq<LookaheadAction>, n: nat, e: LookaheadAction, o: int)
    requires n <= |tab| && e.lookahead >= 0
    ensures Duplicate(tab, n, [e], o) ==> 0 <= e.lookahead + o < n && tab[e.lookahead + o] == e
    ensures Fits(tab, n, [e], o) <==>
            && 0 <= e.lookahead + o < |tab| && tab[e.lookahead + o].lookahead < 0
            && forall k | 0 <= k < n :: tab[k].lookahead != k - o
  {
    hide Owned, Slots;
    assert [e][0] == e;
  }

  lemma OneEntryWritten(tab: seq<LookaheadAction>, n: nat, e: LookaheadAction)
    requires n < |tab| && e.lookahead >= 0
    ensures Write(tab, AsMap([e]), n - e.lookahead) == tab[n := e] && EndOf(n, [e], n - e.lookahead) == n + 1
  {
    OneEntry(e);
    assert [e][..0] == [];
  }

  /** A transaction of one new entry goes right behind the used slots, if all of these are filled and
      none belongs to the offset it would have there. */
  lemma AppendOne(p: Packing, e: LookaheadAction)
    requires p.Ok() && e.lookahead >= 0
    requires forall k | 0 <= k < p.n && k < |p.tab| ::
               p.tab[k].lookahead >= 0 && p.tab[k] != e && p.tab[k].lookahead != k - (p.n - e.lookahead)
    ensures p.n <= |p.tab| && p.Offset([e]) == p.n - e.lookahead
    ensures p.n < |p.Room([e])| && p.Inserted([e]).tab == p.Room([e])[p.n := e] && p.Inserted([e]).n == p.n + 1
  {
    hide Packed, Packing.Ok, Packing.Offset, Packing.Room, Duplicate, Fits, Write, EndOf, AsMap, MinOf, MaxOf, Bounds;
    hide Transaction;
    OneEntry(e);
    RoomOk(p, [e]);
    FoundPlace(p, [e]);
    var room, o := p.Room([e]), p.n - e.lookahead;
    RoomKeeps(p, [e]);
    forall o' | 0 <= o' + e.lookahead < p.n
      ensures !Duplicate(room, p.n, [e], o') && !Fits(room, p.n, [e], o')
    {
      OneEntryFits(room, p.n, e, o');
    }
    OneEntryFits(room, p.n, e, o);
    OneEntryFits(room, p.n, e, p.Offset([e]));
    assert UnusedBehind(room, p.n);
    assert Fits(room, p.n, [e], o) && !p.Exhausted([e]);
    OneEntryWritten(room, p.n, e);
  }

  lemma RoomKeeps(p: Packing, tx: seq<LookaheadAction>)
    requires tx != []
    ensures forall k | 0 <= k < |p.tab| :: p.Room(tx)[k] == p.tab[k]
  {
  }

  // ---------------------------------------------------------------- the table itself

  class ActTab {
    var nAction: nat
    var aAction: array<LookaheadAction>
    var aLookahead: seq<LookaheadAction>
    var mnLookahead: int
    var mnAction: int
    var mxLookahead: int
    /** The transaction behind every offset returned so far. */
    ghost var offsets: map<int, map<int, int>>

    ghost predicate Valid()
      reads this, aAction
    {
      Packed(aAction[..], nAction, offsets) && TransactionOk()
    }

    /** The transaction being collected, with its least and greatest lookahead. */
    ghost predicate TransactionOk()
      reads this
    {
      && Transaction(aLookahead)
      && (aLookahead != [] ==>
            Bounds(aLookahead, mnLookahead, mxLookahead) && LookaheadAction(mnLookahead, mnAction) in aLookahead)
    }

    constructor ()
      ensures Valid() && fresh(aAction)
      ensures aLookahead == [] && offsets == map[] && nAction == 0 && aAction[..] == []
    {
      nAction, aAction, aLookahead := 0, new LookaheadAction[0], [];
      mnLookahead, mnAction, mxLookahead := 0, 0, 0;
      offsets := map[];
    }

    /** `acttab_action`. */
    method AddAction(lookahead: int, action: int)
      requires Valid() && lookahead >= 0 && forall e | e in aLookahead :: e.lookahead != lookahead
      modifies this`aLookahead, this`mnLookahead, this`mnAction, this`mxLookahead
      ensures Valid()
      ensures aLookahead == old(aLookahead) + [LookaheadAction(lookahead, action)]
    {
      hide Packed, Bounds;
      ghost var was := aLookahead;
      var e := LookaheadAction(lookahead, action);
      if |aLookahead| == 0 {
        mxLookahead, mnLookahead, mnAction := lookahead, lookahead, action;
      } else {
        if mxLookahead < lookahead { mxLookahead := lookahead; }
        if mnLookahead > lookahead { mnLookahead, mnAction := lookahead, action; }
      }
      aLookahead := aLookahead + [e];
      AddBounds(was, e, old(mnLookahead), old(mxLookahead), mnLookahead, mxLookahead);
      assert aLookahead[|was|] == e;
      assert forall x | x in was :: x in aLookahead;
    }

    lemma AddBounds(tx: seq<LookaheadAction>, e: LookaheadAction, mn: int, mx: int, mn': int, mx': int)
      requires tx != [] ==> Bounds(tx, mn, mx)
      requires mn' == if tx == [] || e.lookahead < mn then e.lookahead else mn
      requires mx' == if tx == [] || e.lookahead > mx then e.lookahead else mx
      ensures Bounds(tx + [e], mn', mx')
    {
      var tx' := tx + [e];
      assert tx'[|tx|] == e;
      if tx != [] {
        var i :| 0 <= i < |tx| && tx[i].lookahead == mn;
        var j :| 0 <= j < |tx| && tx[j].lookahead == mx;
        assert tx'[i] == tx[i] && tx'[j] == tx[j];
      }
    }

    /** Room for the transaction behind everything used so far. */
    method Reserve()
      requires Valid() && aLookahead != []
      modifies this`aAction
      ensures Valid()
      ensures aAction == old(aAction) || fresh(aAction)
      ensures nAction + mxLookahead + 1 < aAction.Length && aAction[..] == Grown(old(aAction[..]), nAction, mxLookahead)
    {
      var n := mxLookahead + 1;
      MaxNonNegative();
      if nAction + n >= aAction.Length {
        var was, oldAlloc := aAction, aAction.Length;
        var a := new LookaheadAction[nAction + n + oldAlloc + 20];
        for i := 0 to oldAlloc
          invariant aAction == was && forall k | 0 <= k < i :: a[k] == was[k]
        {
          a[i] := was[i];
        }
        for i := oldAlloc to a.Length
          invariant aAction == was && forall k | 0 <= k < oldAlloc :: a[k] == was[k]
          invariant forall k | oldAlloc <= k < i :: a[k] == UNUSED
        {
          a[i] := UNUSED;
        }
        GrownPacked(aAction[..], a[..], nAction, offsets);
        aAction := a;
      }
    }

    lemma MaxNonNegative()
      requires TransactionOk() && aLookahead != []
      ensures 0 <= mnLookahead <= mxLookahead
    {
    }

    ghost function State(): Packing
      reads this, aAction
    {
      Packing(aAction[..], nAction, offsets)
    }

    /** `acttab_insert`.  Where the transaction goes is a function of the table before
        (`Packing.Offset`).  The offset answers for exactly the transaction if and only if the search
        was not exhausted at an offset in use; the other offsets never change. */
    method Insert() returns (offset: int)
      requires Valid() && aLookahead != []
      modifies this, aAction
      ensures Valid() && (aAction == old(aAction) || fresh(aAction))
      ensures aLookahead == [] && nAction <= aAction.Length
      ensures offset == old(State().Offset(aLookahead)) && State() == old(State().Inserted(aLookahead))
      ensures Answers(aAction[..], nAction, offset, AsMap(old(aLookahead))) <==>
              !(old(State().Exhausted(aLookahead)) && offset in old(offsets))
      ensures offset in old(offsets) ==>
                if old(State().Exhausted(aLookahead)) then old(offsets)[offset].Keys !! AsMap(old(aLookahead)).Keys
                else old(offsets)[offset] == AsMap(old(aLookahead))
    {
      hide *;
      Facts();
      ghost var was, tx := State(), aLookahead;
      Used(was);
      InsertedOk(was, tx);
      PlacedParts(was, tx);
      ghost var room := Grown(was.tab, was.n, MaxOf(tx));
      Reserve();
      var i := FindPlace();
      OffsetFound(was, tx, room, i);
      WriteTransaction(i);
      offset := i - mnLookahead;
      aLookahead := [];
      offsets := Merged(offsets, offset, AsMap(tx));
      InsertedParts(was, tx);
      assert State() == was.Inserted(tx) by { StateParts(); }
      NoTransaction();
      MadeValid();
    }

    lemma NoTransaction()
      ensures Transaction([])
    {
    }

    lemma StateParts()
      ensures State() == Packing(aAction[..], nAction, offsets)
    {
    }

    lemma MadeValid()
      requires State().Ok() && aLookahead == [] && Transaction([])
      ensures Valid()
    {
    }

    lemma Facts()
      requires Valid() && aLookahead != []
      ensures State() == Packing(aAction[..], nAction, offsets) && State().Ok()
      ensures UnusedBehind(aAction[..], nAction) && nAction <= aAction.Length
      ensures Transaction(aLookahead) && Bounds(aLookahead, mnLookahead, mxLookahead)
      ensures mnLookahead == MinOf(aLookahead) && mxLookahead == MaxOf(aLookahead)
    {
      BoundsKnown(aLookahead, mnLookahead, mxLookahead);
    }

    /** The slot for mnLookahead, once there is room. */
    method FindPlace() returns (i: int)
      requires Valid() && aLookahead != [] && nAction + mxLookahead + 1 < aAction.Length
      ensures nAction <= aAction.Length
      ensures i == var d := LastDuplicate(aAction[..], nAction, aLookahead, mnLookahead, nAction - 1);
                   if d >= 0 then d
                   else FirstHole(aAction[..], nAction, aLookahead, mnLookahead, aAction.Length - mxLookahead, 0)
    {
      hide *;
      Facts();
      i := FindDuplicate();
      if i < 0 { i := FindHole(); }
    }

    /** The search for a duplicate, from the last used slot down. */
    method FindDuplicate() returns (i: int)
      requires Valid() && aLookahead != []
      ensures nAction <= aAction.Length
      ensures i == LastDuplicate(aAction[..], nAction, aLookahead, mnLookahead, nAction - 1)
    {
      hide Valid, Duplicate;
      Facts();
      i := nAction - 1;
      while i >= 0
        invariant -1 <= i < nAction
        invariant LastDuplicate(aAction[..], nAction, aLookahead, mnLookahead, nAction - 1) ==
                  LastDuplicate(aAction[..], nAction, aLookahead, mnLookahead, i)
      {
        var same := DuplicateAt(i);
        if same { break; }
        i := i - 1;
      }
    }

    method DuplicateAt(i: nat) returns (same: bool)
      requires Valid() && aLookahead != [] && i < nAction
      ensures same <==> Duplicate(aAction[..], nAction, aLookahead, i - mnLookahead)
    {
      Facts();
      hide Packed, Bounds, UnusedBehind, Transaction, Owned;
      MinMatches(aAction[..], i);
      if aAction[i].lookahead != mnLookahead || aAction[i].action != mnAction { return false; }
      var all := MatchesAt(i);
      if !all { return false; }
      MatchesAreOwned(aAction[..], nAction, aLookahead, i - mnLookahead);
      var n := CountOwned(i);
      same := n == |aLookahead|;
    }

    method MatchesAt(i: nat) returns (all: bool)
      requires nAction <= aAction.Length && i < nAction
      ensures all <==> Matches(aAction[..], nAction, aLookahead, i - mnLookahead)
    {
      var j := 0;
      while j < |aLookahead|
        invariant 0 <= j <= |aLookahead|
        invariant forall h | 0 <= h < j :: 0 <= aLookahead[h].lookahead + (i - mnLookahead) < nAction
        invariant forall h | 0 <= h < j :: aAction[..][aLookahead[h].lookahead + (i - mnLookahead)] == aLookahead[h]
      {
        var k := aLookahead[j].lookahead - mnLookahead + i;
        if k < 0 || k >= nAction || aLookahead[j] != aAction[k] { return false; }
        j := j + 1;
      }
      return true;
    }

    lemma MinMatches(tab: seq<LookaheadAction>, i: nat)
      requires TransactionOk() && aLookahead != [] && i < nAction <= |tab|
      ensures Matches(tab, nAction, aLookahead, i - mnLookahead) ==> tab[i] == LookaheadAction(mnLookahead, mnAction)
    {
      var j :| 0 <= j < |aLookahead| && aLookahead[j] == LookaheadAction(mnLookahead, mnAction);
      assert aLookahead[j].lookahead + (i - mnLookahead) == i;
    }

    /** How many slots belong to the offset that has mnLookahead at slot i. */
    method CountOwned(i: nat) returns (n: nat)
      requires Valid()
      ensures n == |Owned(aAction[..], nAction, i - mnLookahead)|
    {
      hide *;
      Facts0();
      NoneOwned(aAction[..], i - mnLookahead);
      n := 0;
      for j := 0 to nAction
        invariant n == |Owned(aAction[..], j, i - mnLookahead)|
      {
        OwnedStep(aAction[..], j, i - mnLookahead);
        if aAction[j].lookahead >= 0 && aAction[j].lookahead == j + mnLookahead - i {
          n := n + 1;
        }
      }
    }

    lemma Facts0()
      requires Valid()
      ensures nAction <= aAction.Length
    {
    }

    /** The search for a hole; it ends at aAction.Length - mxLookahead when there is none. */
    method FindHole() returns (i: nat)
      requires Valid() && aLookahead != [] && nAction + mxLookahead + 1 < aAction.Length
      ensures nAction <= aAction.Length
      ensures i == FirstHole(aAction[..], nAction, aLookahead, mnLookahead, aAction.Length - mxLookahead, 0)
    {
      hide *;
      Facts();
      i := 0;
      while i < aAction.Length - mxLookahead
        invariant 0 <= i <= aAction.Length - mxLookahead
        invariant FirstHole(aAction[..], nAction, aLookahead, mnLookahead, aAction.Length - mxLookahead, 0) ==
                  FirstHole(aAction[..], nAction, aLookahead, mnLookahead, aAction.Length - mxLookahead, i)
      {
        HoleNext(aAction[..], nAction, aLookahead, mnLookahead, aAction.Length - mxLookahead, i);
        var fits := FitsAt(i);
        if fits { return; }
        i := i + 1;
      }
      HoleAtEnd(aAction[..], nAction, aLookahead, mnLookahead, aAction.Length - mxLookahead);
    }

    method FitsAt(i: nat) returns (fits: bool)
      requires Valid() && aLookahead != [] && i < aAction.Length - mxLookahead
      ensures fits <==> Fits(aAction[..], nAction, aLookahead, i - mnLookahead)
    {
      ghost var o := i - mnLookahead;
      var j := 0;
      MinFits(aAction[..], i);
      if aAction[i].lookahead >= 0 { return false; }
      while j < |aLookahead|
        invariant 0 <= j <= |aLookahead|
        invariant forall h | 0 <= h < j :: 0 <= aLookahead[h].lookahead + o < aAction.Length
        invariant forall h | 0 <= h < j :: aAction[..][aLookahead[h].lookahead + o].lookahead < 0
      {
        assert mnLookahead <= aLookahead[j].lookahead <= mxLookahead;
        var k := aLookahead[j].lookahead - mnLookahead + i;
        if k < 0 || aAction[k].lookahead >= 0 { return false; }
        j := j + 1;
      }
      for h := 0 to nAction
        invariant forall k | 0 <= k < h :: aAction[..][k].lookahead != k - o
      {
        if aAction[h].lookahead == h + mnLookahead - i { return false; }
      }
      return true;
    }

    lemma MinFits(tab: seq<LookaheadAction>, i: nat)
      requires TransactionOk() && aLookahead != [] && nAction <= |tab| && i < |tab|
      ensures Fits(tab, nAction, aLookahead, i - mnLookahead) ==> tab[i].lookahead < 0
    {
      var j :| 0 <= j < |aLookahead| && aLookahead[j].lookahead == mnLookahead;
      assert aLookahead[j].lookahead + (i - mnLookahead) == i;
    }

    /** Insert the transaction set at index i. */
    method WriteTransaction(i: int)
      requires nAction <= aAction.Length && InRoom(aAction[..], aLookahead, i - mnLookahead)
      modifies this`nAction, aAction
      ensures aAction[..] == Write(old(aAction[..]), AsMap(aLookahead), i - mnLookahead)
      ensures nAction == EndOf(old(nAction), aLookahead, i - mnLookahead) <= aAction.Length
    {
      ghost var tab, n, o := aAction[..], nAction, i - mnLookahead;
      assert Write(tab, AsMap([]), o) == tab;
      for j := 0 to |aLookahead|
        invariant aAction[..] == Write(tab, AsMap(aLookahead[..j]), o)
        invariant nAction == EndOf(n, aLookahead[..j], o) <= aAction.Length
      {
        var k := aLookahead[j].lookahead - mnLookahead + i;
        assert aLookahead[..j + 1][..j] == aLookahead[..j];
        assert k == aLookahead[j].lookahead + o;
        WriteStep(tab, AsMap(aLookahead[..j]), o, aLookahead[j]);
        aAction[k] := aLookahead[j];
        assert aAction[..] == Write(tab, AsMap(aLookahead[..j]), o)[k := aLookahead[j]];
        if k >= nAction { nAction := k + 1; }
      }
      assert aLookahead[..|aLookahead|] == aLookahead;
    }
  }

  lemma NoneOwned(tab: seq<LookaheadAction>, o: int)
    ensures Owned(tab, 0, o) == {}
  {
  }

  lemma OwnedStep(tab: seq<LookaheadAction>, j: nat, o: int)
    requires j < |tab|
    ensures var more := tab[j].lookahead >= 0 && tab[j].lookahead == j - o;
            |Owned(tab, j + 1, o)| == |Owned(tab, j, o)| + if more then 1 else 0
  {
    if tab[j].lookahead >= 0 && tab[j].lookahead == j - o {
      OwnedMore(tab, j, o);
    } else {
      OwnedSame(tab, j, o);
    }
  }

  lemma OwnedMore(tab: seq<LookaheadAction>, j: nat, o: int)
    requires j < |tab| && tab[j].lookahead >= 0 && tab[j].lookahead == j - o
    ensures Owned(tab, j + 1, o) == Owned(tab, j, o) + {j}
  {
  }

  lemma OwnedSame(tab: seq<LookaheadAction>, j: nat, o: int)
    requires j < |tab| && !(tab[j].lookahead >= 0 && tab[j].lookahead == j - o)
    ensures Owned(tab, j + 1, o) == Owned(tab, j, o)
  {
  }

  lemma WriteStep(tab: seq<LookaheadAction>, m: map<int, int>, o: int, e: LookaheadAction)
    requires 0 <= e.lookahead + o < |tab|
    ensures Write(tab, m[e.lookahead := e.action], o) == Write(tab, m, o)[e.lookahead + o := e]
  {
  }

  /** What writing the transaction at offset o does: every slot stays owned, and o is exact unless
      the search was exhausted at an offset in use, which then holds both transactions. */
  ghost predicate Placed(tab: seq<LookaheadAction>, n: nat, offs: map<int, map<int, int>>, tx: seq<LookaheadAction>,
                         o: int, exhausted: bool) {
    var tab', n' := Write(tab, AsMap(tx), o), EndOf(n, tx, o);
    && InRoom(tab, tx, o) && n' <= |tab|
    && (Answers(tab', n', o, AsMap(tx)) <==> !(exhausted && o in offs))
    && Packed(tab', n', Merged(offs, o, AsMap(tx)))
    && (o in offs ==> if exhausted then offs[o].Keys !! AsMap(tx).Keys else offs[o] == AsMap(tx))
  }

  lemma PlacedParts(p: Packing, tx: seq<LookaheadAction>)
    requires tx != [] && p.n <= |p.tab| && Placed(p.Room(tx), p.n, p.offsets, tx, p.Offset(tx), p.Exhausted(tx))
    ensures var o := p.Offset(tx);
            && InRoom(p.Room(tx), tx, o)
            && (o in p.offsets ==> if p.Exhausted(tx) then p.offsets[o].Keys !! AsMap(tx).Keys
                                   else p.offsets[o] == AsMap(tx))
    ensures var q := p.Inserted(tx);
            && q.n <= |q.tab|
            && (Answers(q.tab, q.n, p.Offset(tx), AsMap(tx)) <==> !(p.Exhausted(tx) && p.Offset(tx) in p.offsets))
  {
    hide Answers, Write, EndOf, AsMap, InRoom;
  }

  lemma OffsetFound(p: Packing, tx: seq<LookaheadAction>, room: seq<LookaheadAction>, i: int)
    requires tx != [] && p.n <= |p.tab| && room == Grown(p.tab, p.n, MaxOf(tx)) && p.n + MaxOf(tx) < |room|
    requires i == var d := LastDuplicate(room, p.n, tx, MinOf(tx), p.n - 1);
                  if d >= 0 then d else FirstHole(room, p.n, tx, MinOf(tx), |room| - MaxOf(tx), 0)
    ensures i - MinOf(tx) == p.Offset(tx) && room == p.Room(tx)
  {
    hide LastDuplicate, FirstHole, Grown, MinOf, MaxOf;
  }

  lemma InsertedParts(p: Packing, tx: seq<LookaheadAction>)
    requires tx != [] && p.n <= |p.tab|
    ensures var o := p.Offset(tx);
            p.Inserted(tx) ==
              Packing(Write(p.Room(tx), AsMap(tx), o), EndOf(p.n, tx, o), Merged(p.offsets, o, AsMap(tx)))
    ensures p.Room(tx) == Grown(p.tab, p.n, MaxOf(tx))
  {
  }

  lemma HoleNext(tab: seq<LookaheadAction>, n: nat, tx: seq<LookaheadAction>, mn: int, end: int, i: int)
    requires n <= |tab| && i < end
    ensures Fits(tab, n, tx, i - mn) ==> FirstHole(tab, n, tx, mn, end, i) == i
    ensures !Fits(tab, n, tx, i - mn) ==> FirstHole(tab, n, tx, mn, end, i) == FirstHole(tab, n, tx, mn, end, i + 1)
  {
    hide Fits;
  }

  lemma HoleAtEnd(tab: seq<LookaheadAction>, n: nat, tx: seq<LookaheadAction>, mn: int, end: int)
    requires n <= |tab|
    ensures FirstHole(tab, n, tx, mn, end, end) == end
  {
  }

  lemma PackedUnused(tab: seq<LookaheadAction>, n: nat, offs: map<int, map<int, int>>)
    requires Packed(tab, n, offs)
    ensures UnusedBehind(tab, n) && n <= |tab|
  {
  }

  lemma FitsUnfilled(tab: seq<LookaheadAction>, n: nat, tx: seq<LookaheadAction>, o: int)
    requires n <= |tab| && Fits(tab, n, tx, o)
    ensures InRoom(tab, tx, o) && Unfilled(tab, tx, o)
  {
  }

  lemma InsertNew(tab: seq<LookaheadAction>, n: nat, offs: map<int, map<int, int>>, tx: seq<LookaheadAction>, o: int)
    requires Packed(tab, n, offs) && Transaction(tx) && tx != []
    requires InRoom(tab, tx, o) && Unfilled(tab, tx, o)
    ensures Placed(tab, n, offs, tx, o, true)
    ensures o !in offs ==> Placed(tab, n, offs, tx, o, false)
  {
    hide Packed, Transaction, InRoom, Unfilled, Answers, Write, EndOf, AsMap;
    WriteExactIff(tab, n, offs, tx, o);
    WritePacked(tab, n, offs, tx, o);
    if o in offs { KeysDisjoint(tab, n, offs, tx, o); }
  }

  lemma KeysDisjoint(tab: seq<LookaheadAction>, n: nat, offs: map<int, map<int, int>>, tx: seq<LookaheadAction>, o: int)
    requires Packed(tab, n, offs) && Transaction(tx) && InRoom(tab, tx, o) && Unfilled(tab, tx, o) && o in offs
    ensures offs[o].Keys !! AsMap(tx).Keys
  {
    forall l | l in AsMap(tx)
      ensures l !in offs[o]
    {
      AsMapEntries(tx);
      UnfilledKeys(tab, tx, o);
      var j :| 0 <= j < |tx| && tx[j].lookahead == l;
      NotAnEntry(tab, n, offs, o, l);
    }
  }

  lemma InsertKnown(tab: seq<LookaheadAction>, n: nat, offs: map<int, map<int, int>>, tx: seq<LookaheadAction>, o: int)
    requires Packed(tab, n, offs) && Transaction(tx) && tx != [] && Duplicate(tab, n, tx, o)
    ensures Placed(tab, n, offs, tx, o, false)
  {
    DuplicateIsKnown(tab, n, offs, tx, o);
    assert offs[o] + AsMap(tx) == AsMap(tx) && Merged(offs, o, AsMap(tx)) == offs;
    WriteSame(tab, n, tx, o);
    PackedAnswers(tab, n, offs, o);
  }
}
