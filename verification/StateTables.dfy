/** The associative array "x3" from kernels to states: `State_insert`, `State_find` and
    `State_arrayof`, with the chains of its buckets threaded through the nodes. */
module StateTables {
  import opened Grammars
  import opened Items

  datatype Option<T> = None | Some(value: T)

  const UINT: nat := 0x1_0000_0000

  /** `statecmp`: the sign of the first difference, a proper prefix being smaller. */
  function Statecmp(g: Grammar, a: seq<Item>, b: seq<Item>): int
    requires ValidItems(g, a) && ValidItems(g, b)
  {
    if a == [] || b == [] then
      if b != [] then -1 else if a != [] then 1 else 0
    else
      var rc := Configcmp(g, a[0], b[0]);
      if rc != 0 then rc else Statecmp(g, a[1..], b[1..])
  }

  lemma {:induction false} StatecmpZero(g: Grammar, a: seq<Item>, b: seq<Item>)
    requires g.Valid() && ValidItems(g, a) && ValidItems(g, b)
    ensures Statecmp(g, a, b) == 0 <==> a == b
  {
    if a != [] && b != [] {
      ConfigcmpZero(g, a[0], b[0]);
      StatecmpZero(g, a[1..], b[1..]);
      assert a == [a[0]] + a[1..] && b == [b[0]] + b[1..];
    }
  }

  /** `statehash`, in unsigned arithmetic. */
  function Statehash(g: Grammar, key: seq<Item>): nat
    requires ValidItems(g, key)
  {
    if key == [] then 0
    else
      var last := key[|key| - 1];
      (Statehash(g, key[..|key| - 1]) * 571 + g.rules[last.rule].index * 37 + last.dot) % UINT
  }

  /** The configurations as digits to the base 571. */
  ghost function Digits(g: Grammar, key: seq<Item>): int
    requires ValidItems(g, key)
  {
    if key == [] then 0
    else
      var last := key[|key| - 1];
      Digits(g, key[..|key| - 1]) * 571 + (g.rules[last.rule].index * 37 + last.dot)
  }

  /** The hash is the number with these digits, up to the wrap-around of unsigned arithmetic. */
  lemma {:induction false} StatehashWraps(g: Grammar, key: seq<Item>)
    requires ValidItems(g, key)
    ensures Statehash(g, key) == Digits(g, key) % UINT
  {
    if key != [] {
      var n := |key| - 1;
      StatehashWraps(g, key[..n]);
      var p, c := Digits(g, key[..n]), g.rules[key[n].rule].index * 37 + key[n].dot;
      Wraps(p, c);
    }
  }

  lemma Wraps(p: int, c: int)
    ensures (p % UINT * 571 + c) % UINT == (p * 571 + c) % UINT
  {
    var q, r := p / UINT, p % UINT;
    assert p * 571 + c == r * 571 + c + q * 571 * UINT;
  }

  ghost predicate AllValid(g: Grammar, keys: seq<seq<Item>>) {
    forall k | 0 <= k < |keys| :: ValidItems(g, keys[k])
  }

  function Bucket(g: Grammar, key: seq<Item>, size: nat): nat
    requires size > 0 && ValidItems(g, key)
  {
    Statehash(g, key) % size
  }

  ghost function Buckets(g: Grammar, keys: seq<seq<Item>>, size: nat): seq<nat>
    requires size > 0 && AllValid(g, keys)
  {
    seq(|keys|, i requires 0 <= i < |keys| => Bucket(g, keys[i], size))
  }

  /** The node before i in the chain of bucket h: the last earlier node of that bucket. */
  ghost function Chain(bs: seq<nat>, h: nat, i: nat): (j: int)
    requires i <= |bs|
    ensures -1 <= j < i
    ensures j >= 0 ==> bs[j] == h
    ensures forall k | j < k < i :: bs[k] != h
  {
    if i == 0 then -1 else if bs[i - 1] == h then i - 1 else Chain(bs, h, i - 1)
  }

  lemma {:induction false} ChainPrefix(bs: seq<nat>, b: nat, h: nat, i: nat)
    requires i <= |bs|
    ensures Chain(bs + [b], h, i) == Chain(bs, h, i)
  {
    if i > 0 {
      ChainPrefix(bs, b, h, i - 1);
    }
  }

  /** Node i links to the previous node of its bucket, and the table to the last one. */
  ghost predicate Threaded(bs: seq<nat>, next: seq<int>, ht: seq<int>) {
    && |bs| <= |next|
    && (forall i | 0 <= i < |bs| :: next[i] == Chain(bs, bs[i], i))
    && (forall h | 0 <= h < |ht| :: ht[h] == Chain(bs, h, |bs|))
  }

  lemma ThreadOne(bs: seq<nat>, next: seq<int>, ht: seq<int>, b: nat)
    requires Threaded(bs, next, ht) && |bs| < |next| && b < |ht|
    ensures Threaded(bs + [b], next[|bs| := ht[b]], ht[b := |bs|])
  {
    forall h, i | 0 <= h && 0 <= i <= |bs|
      ensures Chain(bs + [b], h, i) == Chain(bs, h, i)
    {
      ChainPrefix(bs, b, h, i);
    }
  }

  /** The table as a whole: valid distinct keys, threaded by bucket. */
  ghost predicate Table(g: Grammar, keys: seq<seq<Item>>, size: nat, next: seq<int>, ht: seq<int>) {
    && 0 < size == |next| == |ht| && |keys| <= size
    && AllValid(g, keys)
    && Distinct(keys)
    && Threaded(Buckets(g, keys, size), next, ht)
  }

  lemma AppendToTable(g: Grammar, keys: seq<seq<Item>>, k: seq<Item>, size: nat, next: seq<int>, ht: seq<int>)
    requires Table(g, keys, size, next, ht) && |keys| < size && ValidItems(g, k) && k !in keys
    ensures var h := Bucket(g, k, size);
            Table(g, keys + [k], size, next[|keys| := ht[h]], ht[h := |keys|])
  {
    var h := Bucket(g, k, size);
    ThreadOne(Buckets(g, keys, size), next, ht, h);
    assert Buckets(g, keys + [k], size) == Buckets(g, keys, size) + [h];
  }

  /** Filling the next slot appends to the table. */
  lemma SlotFilled(g: Grammar, key: seq<seq<Item>>, data: seq<nat>, count: nat, k: seq<Item>, d: nat,
                   size: nat, next: seq<int>, ht: seq<int>)
    requires count < size == |key| == |data| && Table(g, key[..count], size, next, ht)
    requires ValidItems(g, k) && k !in key[..count]
    ensures var h := Bucket(g, k, size);
            && |next| == |ht| == size && h < size
            && Table(g, key[count := k][..count + 1], size, next[count := ht[h]], ht[h := count])
    ensures key[count := k][..count + 1] == key[..count] + [k]
    ensures data[count := d][..count + 1] == data[..count] + [d]
  {
    hide Threaded, AllValid, Distinct, Buckets;
    AppendToTable(g, key[..count], k, size, next, ht);
    assert key[count := k][..count + 1] == key[..count] + [k];
  }

  lemma EmptyTable(g: Grammar, size: nat, next: seq<int>, ht: seq<int>)
    requires 0 < size == |next| == |ht| && forall h | 0 <= h < size :: ht[h] == -1
    ensures Table(g, [], size, next, ht)
  {
  }

  lemma TakeDistinct<T>(s: seq<T>, i: nat)
    requires Distinct(s) && i < |s|
    ensures s[i] !in s[..i]
  {
  }

  /** No node of bucket h behind node np has key k. */
  ghost predicate NotBehind(bs: seq<nat>, keys: seq<seq<Item>>, h: nat, k: seq<Item>, np: int)
    requires |bs| == |keys|
  {
    forall i | np < i < |bs| && 0 <= i && bs[i] == h :: keys[i] != k
  }

  lemma NextInChain(bs: seq<nat>, keys: seq<seq<Item>>, h: nat, k: seq<Item>, np: nat)
    requires |bs| == |keys| && np < |bs| && NotBehind(bs, keys, h, k, np) && keys[np] != k
    ensures NotBehind(bs, keys, h, k, Chain(bs, h, np))
  {
  }

  /** `tbl` is split into its fields key, data and next, which have `size` slots; -1 is the null
      link. */
  class StateTable {
    const g: Grammar
    var size: nat
    var count: nat
    var key: seq<seq<Item>>
    var data: seq<nat>
    var next: seq<int>
    var ht: seq<int>

    ghost predicate Valid()
      reads this
    {
      && count <= size
      && |key| == |data| == size
      && Table(g, Keys(), size, next, ht)
    }

    /** The keys and the states in order of insertion; `State_arrayof` returns the latter. */
    function Keys(): seq<seq<Item>>
      requires count <= |key|
      reads this
    {
      key[..count]
    }

    function Values(): seq<nat>
      requires count <= |data|
      reads this
    {
      data[..count]
    }

    constructor (g: Grammar)
      ensures Valid() && this.g == g
      ensures Keys() == [] && Values() == [] && size == 128 == |ht|
    {
      this.g := g;
      size, count := 128, 0;
      key, data := seq(128, i => []), seq(128, i => 0);
      next, ht := seq(128, i => -1), seq(128, i => -1);
    }

    /** Walk the chain of the key's bucket. */
    method Lookup(k: seq<Item>) returns (np: int)
      requires Valid() && g.Valid() && ValidItems(g, k)
      ensures -1 <= np < count
      ensures np >= 0 ==> Keys()[np] == k
      ensures np == -1 ==> k !in Keys()
    {
      var h := Bucket(g, k, size);
      ghost var keys, bs := Keys(), Buckets(g, Keys(), size);
      np := ht[h];
      while np != -1
        invariant -1 <= np < count
        invariant np >= 0 ==> bs[np] == h
        invariant NotBehind(bs, keys, h, k, np)
        decreases np
      {
        assert ValidItems(g, keys[np]);
        StatecmpZero(g, key[np], k);
        if Statecmp(g, key[np], k) == 0 { return; }
        NextInChain(bs, keys, h, k, np);
        np := next[np];
      }
    }

    method Find(k: seq<Item>) returns (r: Option<nat>)
      requires Valid() && g.Valid() && ValidItems(g, k)
      ensures r.None? <==> k !in Keys()
      ensures forall i | 0 <= i < count && Keys()[i] == k :: r == Some(Values()[i])
    {
      var np := Lookup(k);
      r := if np == -1 then None else Some(data[np]);
    }

    /** Prior data with the same key is not overwritten. */
    method Insert(d: nat, k: seq<Item>) returns (ok: bool)
      requires Valid() && g.Valid() && ValidItems(g, k)
      modifies this
      ensures Valid()
      ensures ok == (k !in old(Keys()))
      ensures Keys() == if ok then old(Keys()) + [k] else old(Keys())
      ensures Values() == if ok then old(Values()) + [d] else old(Values())
    {
      var np := Lookup(k);
      if np != -1 {
        assert Keys()[np] == k;
        return false;
      }
      if count >= size { Grow(); }
      Put(k, d);
      return true;
    }

    /** Fill the next node and push it on the chain of its bucket. */
    method Put(k: seq<Item>, d: nat)
      requires Valid() && ValidItems(g, k) && k !in Keys() && count < size
      modifies this
      ensures Valid() && size == old(size) && count == old(count) + 1
      ensures Keys() == old(Keys()) + [k]
      ensures Values() == old(Values()) + [d]
    {
      hide Table, Bucket;
      var h := Bucket(g, k, size);
      SlotFilled(g, key, data, count, k, d, size, next, ht);
      key, data, next := key[count := k], data[count := d], next[count := ht[h]];
      ht := ht[h := count];
      count := count + 1;
    }

    /** Twice the slots: every node is threaded into its new bucket, in order. */
    method Grow()
      requires Valid() && count == size
      modifies this
      ensures Valid() && size == 2 * old(size) && count == old(count)
      ensures Keys() == old(Keys()) && Values() == old(Values())
    {
      var key0, data0, n, arrSize := key, data, count, size * 2;
      size, count := arrSize, 0;
      key, data := seq(arrSize, i => []), seq(arrSize, i => 0);
      next, ht := seq(arrSize, i => -1), seq(arrSize, i => -1);
      EmptyTable(g, arrSize, next, ht);
      for i := 0 to n
        invariant Valid() && size == arrSize && count == i
        invariant Keys() == key0[..i] && Values() == data0[..i]
      {
        TakeDistinct(key0, i);
        assert key0[..i + 1] == key0[..i] + [key0[i]] && data0[..i + 1] == data0[..i] + [data0[i]];
        Put(key0[i], data0[i]);
      }
      assert key0[..n] == key0 && data0[..n] == data0;
    }
  }
}
