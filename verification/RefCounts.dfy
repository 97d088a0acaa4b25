/** `CFCBase` and `CFCWeakPtr`: strong and weak reference counts, and destruction that re-enters. */
module RefCounts {

  /** A field of an object: a strong reference, or a weak pointer.  NULL fields are left out. */
  datatype Field = Strong(ref: nat) | Weak(ref: nat)

  /** The null pointer, where a pointer is an int. */
  const NULL: int := -1

  /** An object on the heap; `fields` are what its `destroy` will release, in this order. */
  datatype Obj = Obj(refcount: nat, weakRefcount: nat, fields: seq<Field>, freed: bool)

  // ---------------------------------------------------------------- counting references

  function StrongOf(fields: seq<Field>, x: nat): nat {
    if fields == [] then 0 else (if fields[0] == Strong(x) then 1 else 0) + StrongOf(fields[1..], x)
  }

  function WeakOf(fields: seq<Field>, x: nat): nat {
    if fields == [] then 0 else (if fields[0] == Weak(x) then 1 else 0) + WeakOf(fields[1..], x)
  }

  /** The strong references to x that objects hold. */
  function StrongRefs(objs: seq<Obj>, x: nat): nat {
    if objs == [] then 0 else StrongRefs(objs[..|objs| - 1], x) + StrongOf(objs[|objs| - 1].fields, x)
  }

  function WeakRefs(objs: seq<Obj>, x: nat): nat {
    if objs == [] then 0 else WeakRefs(objs[..|objs| - 1], x) + WeakOf(objs[|objs| - 1].fields, x)
  }

  lemma {:induction false} RefsUpdate(objs: seq<Obj>, i: nat, o: Obj, x: nat)
    requires i < |objs|
    ensures StrongRefs(objs[i := o], x) + StrongOf(objs[i].fields, x) == StrongRefs(objs, x) + StrongOf(o.fields, x)
    ensures WeakRefs(objs[i := o], x) + WeakOf(objs[i].fields, x) == WeakRefs(objs, x) + WeakOf(o.fields, x)
  {
    var n := |objs| - 1;
    if i == n {
      assert objs[i := o][..n] == objs[..n];
    } else {
      RefsUpdate(objs[..n], i, o, x);
      assert objs[i := o][..n] == objs[..n][i := o];
    }
  }

  lemma SameFields(objs: seq<Obj>, i: nat, o: Obj)
    requires i < |objs| && o.fields == objs[i].fields
    ensures forall x: nat ::
              StrongRefs(objs[i := o], x) == StrongRefs(objs, x) && WeakRefs(objs[i := o], x) == WeakRefs(objs, x)
  {
    forall x: nat
      ensures StrongRefs(objs[i := o], x) == StrongRefs(objs, x) && WeakRefs(objs[i := o], x) == WeakRefs(objs, x)
    {
      RefsUpdate(objs, i, o, x);
    }
  }

  lemma {:induction false} CountsAt(fields: seq<Field>, at: nat, x: nat)
    requires at < |fields|
    ensures var rest := fields[..at] + fields[at + 1..];
            && StrongOf(fields, x) == StrongOf(rest, x) + (if fields[at] == Strong(x) then 1 else 0)
            && WeakOf(fields, x) == WeakOf(rest, x) + (if fields[at] == Weak(x) then 1 else 0)
  {
    var rest := fields[..at] + fields[at + 1..];
    if at == 0 {
      assert rest == fields[1..];
    } else {
      CountsAt(fields[1..], at - 1, x);
      assert rest[1..] == fields[1..][..at - 1] + fields[1..][at..];
    }
  }

  /** An object loses a field: to whoever goes on to release it. */
  lemma FieldTakenAt(objs: seq<Obj>, i: nat, at: nat)
    requires i < |objs| && at < |objs[i].fields|
    ensures var f := objs[i].fields[at]; var objs' := objs[i := Without(objs[i], at)];
            forall x: nat ::
              && StrongRefs(objs, x) == StrongRefs(objs', x) + (if f == Strong(x) then 1 else 0)
              && WeakRefs(objs, x) == WeakRefs(objs', x) + (if f == Weak(x) then 1 else 0)
  {
    var f, o := objs[i].fields[at], Without(objs[i], at);
    forall x: nat
      ensures StrongRefs(objs, x) == StrongRefs(objs[i := o], x) + (if f == Strong(x) then 1 else 0)
      ensures WeakRefs(objs, x) == WeakRefs(objs[i := o], x) + (if f == Weak(x) then 1 else 0)
    {
      RefsUpdate(objs, i, o, x);
      CountsAt(objs[i].fields, at, x);
    }
  }

  /** The first field. */
  lemma FieldTaken(objs: seq<Obj>, i: nat)
    requires i < |objs| && objs[i].fields != []
    ensures var f := objs[i].fields[0]; var objs' := objs[i := objs[i].(fields := objs[i].fields[1..])];
            forall x: nat ::
              && StrongRefs(objs, x) == StrongRefs(objs', x) + (if f == Strong(x) then 1 else 0)
              && WeakRefs(objs, x) == WeakRefs(objs', x) + (if f == Weak(x) then 1 else 0)
  {
    assert Without(objs[i], 0).fields == objs[i].fields[1..];
    FieldTakenAt(objs, i, 0);
  }

  // ---------------------------------------------------------------- the invariant

  ghost predicate InRange(objs: seq<Obj>, fields: seq<Field>) {
    forall k | 0 <= k < |fields| :: fields[k].ref < |objs|
  }

  /** What the counts of object i mean when s strong and w weak references to it exist.  An object
      being destroyed still counts the reference that was given up last. */
  ghost predicate Counted(o: Obj, s: nat, w: nat, dying: bool) {
    if o.freed then s == 0 && w == 0 && o.fields == [] && !dying
    else if dying then s == 0 && o.refcount == 1 && o.weakRefcount == w
    else o.refcount == s && o.weakRefcount == w && (s == 0 ==> w > 0 && o.fields == [])
  }

  /** `owned` and `watched` are the strong and weak references that clients hold. */
  ghost predicate Inv(objs: seq<Obj>, owned: multiset<nat>, watched: multiset<nat>, dying: set<nat>) {
    AllInRange(objs) && AllCounted(objs, owned, watched, dying) && AllKnown(objs, owned, watched, dying)
  }

  ghost predicate AllInRange(objs: seq<Obj>) {
    forall i | 0 <= i < |objs| :: InRange(objs, objs[i].fields)
  }

  ghost predicate AllCounted(objs: seq<Obj>, owned: multiset<nat>, watched: multiset<nat>, dying: set<nat>) {
    forall i | 0 <= i < |objs| :: CountedAt(objs, owned, watched, dying, i)
  }

  ghost predicate CountedAt(objs: seq<Obj>, owned: multiset<nat>, watched: multiset<nat>, dying: set<nat>, i: nat)
    requires i < |objs|
  {
    Counted(objs[i], StrongRefs(objs, i) + owned[i], WeakRefs(objs, i) + watched[i], i in dying)
  }

  ghost predicate AllKnown(objs: seq<Obj>, owned: multiset<nat>, watched: multiset<nat>, dying: set<nat>) {
    forall i: nat | i in owned || i in watched || i in dying :: i < |objs|
  }

  /** Only what concerns object i changes. */
  ghost predicate OnlyAt(i: nat, owned: multiset<nat>, watched: multiset<nat>, dying: set<nat>,
                         owned': multiset<nat>, watched': multiset<nat>, dying': set<nat>) {
    forall x: nat | x != i :: SameAt(x, owned, watched, dying, owned', watched', dying')
  }

  ghost predicate SameAt(x: nat, owned: multiset<nat>, watched: multiset<nat>, dying: set<nat>,
                         owned': multiset<nat>, watched': multiset<nat>, dying': set<nat>) {
    owned'[x] == owned[x] && watched'[x] == watched[x] && (x in dying' <==> x in dying)
  }

  /** Changing the counts of one object, with the references that clients hold to it. */
  lemma CountsChanged(objs: seq<Obj>, owned: multiset<nat>, watched: multiset<nat>, dying: set<nat>,
                      i: nat, o: Obj, owned': multiset<nat>, watched': multiset<nat>, dying': set<nat>)
    requires Inv(objs, owned, watched, dying) && i < |objs| && o.fields == objs[i].fields
    requires OnlyAt(i, owned, watched, dying, owned', watched', dying')
    requires Counted(o, StrongRefs(objs, i) + owned'[i], WeakRefs(objs, i) + watched'[i], i in dying')
    ensures Inv(objs[i := o], owned', watched', dying')
  {
    hide *;
    InvParts(objs, owned, watched, dying);
    RangeStill(objs, i, o);
    CountedStill(objs, owned, watched, dying, i, o, owned', watched', dying');
    KnownStill(objs, owned, watched, dying, i, o, owned', watched', dying');
    InvFrom(objs[i := o], owned', watched', dying');
  }

  lemma InvParts(objs: seq<Obj>, owned: multiset<nat>, watched: multiset<nat>, dying: set<nat>)
    requires Inv(objs, owned, watched, dying)
    ensures AllInRange(objs) && AllCounted(objs, owned, watched, dying) && AllKnown(objs, owned, watched, dying)
  {
  }

  lemma InvFrom(objs: seq<Obj>, owned: multiset<nat>, watched: multiset<nat>, dying: set<nat>)
    requires AllInRange(objs) && AllCounted(objs, owned, watched, dying) && AllKnown(objs, owned, watched, dying)
    ensures Inv(objs, owned, watched, dying)
  {
  }

  lemma RangeStill(objs: seq<Obj>, i: nat, o: Obj)
    requires AllInRange(objs) && i < |objs| && o.fields == objs[i].fields
    ensures AllInRange(objs[i := o])
  {
    var objs' := objs[i := o];
    forall x | 0 <= x < |objs'|
      ensures InRange(objs', objs'[x].fields)
    {
      assert InRange(objs, objs[x].fields);
    }
  }

  lemma CountedStill(objs: seq<Obj>, owned: multiset<nat>, watched: multiset<nat>, dying: set<nat>,
                     i: nat, o: Obj, owned': multiset<nat>, watched': multiset<nat>, dying': set<nat>)
    requires AllCounted(objs, owned, watched, dying) && i < |objs| && o.fields == objs[i].fields
    requires OnlyAt(i, owned, watched, dying, owned', watched', dying')
    requires Counted(o, StrongRefs(objs, i) + owned'[i], WeakRefs(objs, i) + watched'[i], i in dying')
    ensures AllCounted(objs[i := o], owned', watched', dying')
  {
    hide Counted, StrongRefs, WeakRefs, SameAt;
    SameFields(objs, i, o);
    var objs' := objs[i := o];
    forall x | 0 <= x < |objs'|
      ensures CountedAt(objs', owned', watched', dying', x)
    {
      assert CountedAt(objs, owned, watched, dying, x);
      if x != i { SameCounts(x, owned, watched, dying, owned', watched', dying'); }
    }
  }

  lemma KnownStill(objs: seq<Obj>, owned: multiset<nat>, watched: multiset<nat>, dying: set<nat>,
                   i: nat, o: Obj, owned': multiset<nat>, watched': multiset<nat>, dying': set<nat>)
    requires AllKnown(objs, owned, watched, dying) && i < |objs|
    requires OnlyAt(i, owned, watched, dying, owned', watched', dying')
    ensures AllKnown(objs[i := o], owned', watched', dying')
  {
    hide SameAt;
    forall x: nat | x in owned' || x in watched' || x in dying'
      ensures x < |objs|
    {
      if x != i { SameCounts(x, owned, watched, dying, owned', watched', dying'); }
    }
  }

  lemma SameCounts(x: nat, owned: multiset<nat>, watched: multiset<nat>, dying: set<nat>,
                   owned': multiset<nat>, watched': multiset<nat>, dying': set<nat>)
    requires SameAt(x, owned, watched, dying, owned', watched', dying')
    ensures owned'[x] == owned[x] && watched'[x] == watched[x] && (x in dying' <==> x in dying)
    ensures (x in owned' <==> x in owned) && (x in watched' <==> x in watched)
  {
  }

  /** Between client calls an object's memory is freed exactly when no reference to it remains. */
  lemma FreedIff(objs: seq<Obj>, owned: multiset<nat>, watched: multiset<nat>, i: nat)
    requires Inv(objs, owned, watched, {}) && i < |objs|
    ensures objs[i].freed <==> StrongRefs(objs, i) + owned[i] == 0 && WeakRefs(objs, i) + watched[i] == 0
  {
    assert CountedAt(objs, owned, watched, {}, i);
  }

  /** A pointer to object x may be followed: its destruction has not begun. */
  ghost predicate IsAlive(objs: seq<Obj>, x: nat) {
    x < |objs| && !objs[x].freed && objs[x].refcount > 0
  }

  lemma AliveFacts(objs: seq<Obj>, owned: multiset<nat>, watched: multiset<nat>, x: nat)
    requires Inv(objs, owned, watched, {}) && IsAlive(objs, x)
    ensures Counted(objs[x], StrongRefs(objs, x) + owned[x], WeakRefs(objs, x) + watched[x], false)
    ensures StrongRefs(objs, x) + owned[x] > 0
  {
    assert CountedAt(objs, owned, watched, {}, x);
  }

  /** A way along strong references. */
  ghost predicate Path(objs: seq<Obj>, p: seq<nat>) {
    && p != [] && (forall k | 0 <= k < |p| :: p[k] < |objs|)
    && forall k | 0 < k < |p| :: Strong(p[k]) in objs[p[k - 1]].fields
  }

  /** Nothing that a client can still reach is gone: along strong references from what it owns every
      object is alive, and so is the memory behind every weak pointer. */
  lemma {:induction false} ReachableAlive(objs: seq<Obj>, owned: multiset<nat>, watched: multiset<nat>, p: seq<nat>)
    requires Inv(objs, owned, watched, {}) && Path(objs, p) && p[0] in owned
    ensures IsAlive(objs, p[|p| - 1])
    ensures forall f | f in objs[p[|p| - 1]].fields :: f.ref < |objs| && !objs[f.ref].freed
    decreases |p|
  {
    var n := |p| - 1;
    assert CountedAt(objs, owned, watched, {}, p[n]);
    if n > 0 {
      ReachableAlive(objs, owned, watched, p[..n]);
      assert p[..n][n - 1] == p[n - 1];
      HeldByField(objs, p[n - 1], Strong(p[n]));
    }
    forall f | f in objs[p[n]].fields
      ensures f.ref < |objs| && !objs[f.ref].freed
    {
      assert InRange(objs, objs[p[n]].fields);
      HeldByField(objs, p[n], f);
      assert CountedAt(objs, owned, watched, {}, f.ref);
    }
  }

  lemma {:induction false} HeldByField(objs: seq<Obj>, i: nat, f: Field)
    requires i < |objs| && f in objs[i].fields
    ensures f.Strong? ==> StrongRefs(objs, f.ref) > 0
    ensures f.Weak? ==> WeakRefs(objs, f.ref) > 0
  {
    if i == |objs| - 1 {
      HeldAmong(objs[i].fields, f);
    } else {
      HeldByField(objs[..|objs| - 1], i, f);
    }
  }

  lemma {:induction false} HeldAmong(fields: seq<Field>, f: Field)
    requires f in fields
    ensures f.Strong? ==> StrongOf(fields, f.ref) > 0
    ensures f.Weak? ==> WeakOf(fields, f.ref) > 0
  {
    if fields[0] != f { HeldAmong(fields[1..], f); }
  }

  /** Objects that destruction has not begun with. */
  ghost function Alive(objs: seq<Obj>, dying: set<nat>): set<nat> {
    set i | 0 <= i < |objs| && !objs[i].freed && i !in dying && objs[i].refcount > 0
  }

  /** What releasing does to the heap besides: nothing freed comes back, no object comes alive, and
      the objects being destroyed keep their fields. */
  ghost predicate Released(was: seq<Obj>, objs: seq<Obj>, dying: set<nat>) {
    && |objs| == |was|
    && (forall i | 0 <= i < |was| && was[i].freed :: objs[i].freed)
    && (forall i | 0 <= i < |was| && i in dying :: objs[i].fields == was[i].fields && objs[i].freed == was[i].freed)
    && Alive(objs, dying) <= Alive(was, dying)
  }

  /** What is still strongly referenced keeps its fields. */
  ghost predicate Kept(was: seq<Obj>, objs: seq<Obj>, dying: set<nat>) {
    && |objs| == |was|
    && forall i | i in Alive(objs, dying) :: i < |was| && objs[i].fields == was[i].fields
  }

  // ---------------------------------------------------------------- the heap

  class Heap {
    var objs: seq<Obj>
    ghost var owned: multiset<nat>
    ghost var watched: multiset<nat>

    ghost predicate Valid()
      reads this
    {
      Inv(objs, owned, watched, {})
    }

    constructor ()
      ensures Valid() && objs == [] && owned == watched == multiset{}
    {
      objs, owned, watched := [], multiset{}, multiset{};
    }

    /** FREEMEM: never twice. */
    method Free(i: nat)
      requires i < |objs| && !objs[i].freed
      modifies this`objs
      ensures objs == old(objs)[i := old(objs)[i].(freed := true)]
    {
      objs := objs[i := objs[i].(freed := true)];
    }

    /** `CFCBase_allocate`. */
    method Allocate() returns (self: nat)
      requires Valid()
      modifies this
      ensures Valid() && self == |old(objs)| && objs == old(objs) + [Obj(1, 0, [], false)]
      ensures owned == old(owned) + multiset{self} && watched == old(watched)
    {
      self := |objs|;
      AllocatedOk(objs, owned, watched);
      objs := objs + [Obj(1, 0, [], false)];
      owned := owned + multiset{self};
    }

    /** `CFCBase_incref`, on whatever alive object the client has a pointer to: one that it owns, or that
        it has found in the fields of another (`ReachableAlive`), or by a weak pointer (`Deref`). */
    method Incref(self: int) returns (same: int)
      requires Valid() && (self == NULL || (self >= 0 && IsAlive(objs, self)))
      modifies this
      ensures Valid() && same == self && watched == old(watched)
      ensures self == NULL ==> objs == old(objs) && owned == old(owned)
      ensures self != NULL ==>
                && owned == old(owned) + multiset{self as nat}
                && objs == old(objs)[self := old(objs)[self].(refcount := old(objs)[self].refcount + 1)]
    {
      hide Inv;
      if self != NULL {
        AliveFacts(objs, owned, watched, self);
        CountsChanged(objs, owned, watched, {}, self, objs[self].(refcount := objs[self].refcount + 1),
                      owned + multiset{self as nat}, watched, {});
        objs := objs[self := objs[self].(refcount := objs[self].refcount + 1)];
        owned := owned + multiset{self as nat};
      }
      same := self;
    }

    /** `CFCWeakPtr_new`, on an object whose memory is still there. */
    method NewWeak(base: int)
      requires Valid() && (base == NULL || (0 <= base < |objs| && !objs[base].freed))
      modifies this
      ensures Valid() && owned == old(owned)
      ensures base == NULL ==> objs == old(objs) && watched == old(watched)
      ensures base != NULL ==>
                && watched == old(watched) + multiset{base as nat}
                && objs == old(objs)[base := old(objs)[base].(weakRefcount := old(objs)[base].weakRefcount + 1)]
    {
      hide Inv;
      if base != NULL {
        DyingFacts(objs, owned, watched, {}, base);
        CountsChanged(objs, owned, watched, {}, base, objs[base].(weakRefcount := objs[base].weakRefcount + 1),
                      owned, watched + multiset{base as nat}, {});
        objs := objs[base := objs[base].(weakRefcount := objs[base].weakRefcount + 1)];
        watched := watched + multiset{base as nat};
      }
    }

    /** `CFCWeakPtr_deref`, which dies if the object has been destroyed. */
    method Deref(base: int) returns (dies: bool)
      requires Valid() && (base == NULL || (0 <= base < |objs| && !objs[base].freed))
      ensures dies <==> base != NULL && !IsAlive(objs, base)
      ensures base != NULL ==> (dies <==> StrongRefs(objs, base) + owned[base] == 0)
    {
      if base != NULL { DyingFacts(objs, owned, watched, {}, base); }
      dies := base != NULL && objs[base].refcount == 0;
    }

    /** `S_copy_cfcbase_array`: the copy holds a reference of its own to every element. */
    method CopyArray(elems: seq<nat>) returns (copy: seq<nat>)
      requires Valid() && forall k | 0 <= k < |elems| :: IsAlive(objs, elems[k])
      modifies this
      ensures Valid() && copy == elems && owned == old(owned) + multiset(elems) && watched == old(watched)
      ensures CountedMore(old(objs), objs, elems)
    {
      hide *;
      CountedSame(objs);
      copy := [];
      assert elems[..0] == [];
      for i := 0 to |elems|
        invariant Valid() && copy == elems[..i] && owned == old(owned) + multiset(elems[..i]) && watched == old(watched)
        invariant CountedMore(old(objs), objs, elems[..i])
      {
        CountOneMore(old(objs), objs, elems, i);
        NotNull(elems[i]);
        var same := Incref(elems[i]);
        copy := copy + [elems[i]];
      }
      assert elems[..|elems|] == elems;
    }

    /** `S_free_cfcbase_array`, on references that the client holds. */
    method FreeArray(elems: seq<nat>)
      requires Valid() && multiset(elems) <= owned
      modifies this
      ensures Valid() && owned == old(owned) - multiset(elems) && watched == old(watched)
      ensures Survive(old(objs), objs)
    {
      hide *;
      AllSurvive(objs);
      assert elems[..0] == [] && elems[0..] == elems;
      for i := 0 to |elems|
        invariant Valid() && owned == old(owned) - multiset(elems[..i]) && watched == old(watched)
        invariant multiset(elems[i..]) <= owned && Survive(old(objs), objs)
      {
        ghost var was, before := objs, owned;
        GiveOne(old(owned), before, elems, i);
        NotNull(elems[i]);
        var count := Decref(elems[i]);
        SurviveOn(old(objs), was, objs);
      }
      assert elems[..|elems|] == elems;
    }

    /** `CFCWeakPtr_destroy`, on a weak reference that is counted in `watched`. */
    method ReleaseWeak(base: nat, ghost dying: set<nat>)
      requires Inv(objs, owned, watched, dying) && base in watched
      modifies this
      ensures Inv(objs, owned, watched, dying) && Released(old(objs), objs, dying)
      ensures owned == old(owned) && watched == old(watched) - multiset{base}
      ensures base < |old(objs)| && old(objs)[base].weakRefcount > 0
      ensures objs == old(objs)[base := AfterWeak(old(objs)[base])] && Kept(old(objs), objs, dying)
    {
      hide Inv, Released;
      HeldFacts(objs, owned, watched, dying, base);
      ghost var was := objs;
      var o := objs[base].(weakRefcount := objs[base].weakRefcount - 1);
      WeakReleased(objs, owned, watched, dying, base);
      objs := objs[base := o];
      watched := watched - multiset{base};
      if objs[base].refcount == 0 && objs[base].weakRefcount == 0 {
        Free(base);
      }
      assert objs == was[base := AfterWeak(was[base])];
    }

    /** `CFCBase_decref`, on a strong reference that is counted in `owned`. */
    method ReleaseStrong(self: nat, ghost dying: set<nat>) returns (count: nat)
      requires Inv(objs, owned, watched, dying) && self in owned
      modifies this
      ensures self < |old(objs)| && count == old(objs)[self].refcount - 1
      ensures Inv(objs, owned, watched, dying) && Released(old(objs), objs, dying) && Kept(old(objs), objs, dying)
      ensures owned == old(owned) - multiset{self} && watched == old(watched)
      decreases Alive(objs, dying), 1
    {
      hide Inv, Released, Alive, Kept;
      HeldFacts(objs, owned, watched, dying, self);
      if objs[self].refcount > 1 {
        StrongReleased(objs, owned, watched, dying, self);
        objs := objs[self := objs[self].(refcount := objs[self].refcount - 1)];
        owned := owned - multiset{self};
        count := objs[self].refcount;
      } else {
        Destroy(self, dying);
        count := 0;
      }
    }

    /** `meta->destroy`: the fields are released one by one, while the object still counts its last
        reference; then `CFCBase_destroy` frees the memory, or leaves that to the last weak pointer. */
    method Destroy(self: nat, ghost dying: set<nat>)
      requires Inv(objs, owned, watched, dying) && self in owned && self < |objs| && objs[self].refcount == 1
      modifies this
      ensures Inv(objs, owned, watched, dying) && Released(old(objs), objs, dying) && Kept(old(objs), objs, dying)
      ensures owned == old(owned) - multiset{self} && watched == old(watched)
      decreases Alive(objs, dying), 0
    {
      hide *;
      ghost var within := dying + {self};
      BeginDestroy(objs, owned, watched, dying, self);
      owned := owned - multiset{self};
      while objs[self].fields != []
        invariant Inv(objs, owned, watched, within) && |objs| == |old(objs)|
        invariant owned == old(owned) - multiset{self} && watched == old(watched)
        invariant Released(old(objs), objs, dying) && Alive(objs, within) < Alive(old(objs), dying) && !objs[self].freed
        invariant Kept(old(objs), objs, within)
        decreases |objs[self].fields|
      {
        var f := objs[self].fields[0];
        ghost var before := objs;
        TakeField(objs, owned, watched, dying, self);
        objs := objs[self := objs[self].(fields := objs[self].fields[1..])];
        ghost var mid := objs;
        AliveTaken(before, within, self);
        if f.Strong? {
          owned := owned + multiset{f.ref};
          var count := ReleaseStrong(f.ref, within);
        } else {
          watched := watched + multiset{f.ref};
          ReleaseWeak(f.ref, within);
        }
        FieldReleased(old(objs), before, mid, objs, dying, self);
      }
      ghost var last := objs;
      EndDestroy(objs, owned, watched, dying, self);
      if objs[self].weakRefcount == 0 {
        Free(self);
      } else {
        objs := objs[self := objs[self].(refcount := 0)];
      }
      Destroyed(old(objs), last, objs, dying, self);
    }

    /** A client stores one of its references, strong or weak, in an alive object, as field `at`: what
        `CFCClass_add_function` does with the reference it has made. */
    method Store(self: nat, at: nat, f: Field)
      requires Valid() && IsAlive(objs, self) && at <= |objs[self].fields|
      requires if f.Strong? then f.ref in owned else f.ref in watched
      modifies this
      ensures Valid() && objs == old(objs)[self := WithField(old(objs)[self], at, f)]
      ensures owned == (if f.Strong? then old(owned) - multiset{f.ref} else old(owned))
      ensures watched == (if f.Strong? then old(watched) else old(watched) - multiset{f.ref})
    {
      hide Inv;
      StoreField(objs, owned, watched, self, at, f);
      objs := objs[self := WithField(objs[self], at, f)];
      if f.Strong? {
        owned := owned - multiset{f.ref};
      } else {
        watched := watched - multiset{f.ref};
      }
    }

    /** `CFCWeakPtr_set` on a weak pointer of a client. */
    method SetWeak(oldBase: int, base: int)
      requires Valid() && (oldBase == NULL || (oldBase >= 0 && oldBase in watched))
      requires base == NULL || (base >= 0 && IsAlive(objs, base))
      modifies this
      ensures Valid() && owned == old(owned)
      ensures watched == if oldBase == base then old(watched) else old(watched) - One(oldBase) + One(base)
      ensures WeakOnly(old(objs), objs)
    {
      hide *;
      Ones(oldBase, base);
      AllWeakOnly(objs);
      if oldBase == base { return; }
      ghost var was := objs;
      DestroyWeak(oldBase);
      if oldBase != NULL { AfterWeakOnly(was, oldBase); }
      WeakOnlyAlive(was, objs, base);
      ghost var mid := objs;
      NewWeak(base);
      if base != NULL { MoreWeakOnly(mid, base); } else { AllWeakOnly(mid); }
      WeakOnlyOn(was, mid, objs);
    }

    /** The weak pointer that is field `at` of an alive object is cleared: until it is released or stored
        again its reference counts as the client's. */
    method TakeWeak(owner: nat, at: nat)
      requires Valid() && IsAlive(objs, owner) && at < |objs[owner].fields| && objs[owner].fields[at].Weak?
      modifies this
      ensures Valid() && owned == old(owned) && watched == old(watched) + multiset{old(objs)[owner].fields[at].ref}
      ensures objs == old(objs)[owner := Without(old(objs)[owner], at)]
    {
      hide Inv;
      TakeFieldAt(objs, owned, watched, owner, at);
      watched := watched + multiset{objs[owner].fields[at].ref};
      objs := objs[owner := Without(objs[owner], at)];
    }

    /** `CFCWeakPtr_set` on a weak pointer inside an alive object, as the `parent` of a child class is:
        its field `at`, or if it is null so far, a field to come there. */
    method SetWeakField(owner: nat, at: nat, oldBase: int, base: int)
      requires Valid() && IsAlive(objs, owner) && at <= |objs[owner].fields|
      requires oldBase == NULL || (oldBase >= 0 && at < |objs[owner].fields| && objs[owner].fields[at] == Weak(oldBase))
      requires base == NULL || (base >= 0 && IsAlive(objs, base))
      modifies this
      ensures Valid() && owned == old(owned) && watched == old(watched)
      ensures OnlyFields(old(objs), objs, owner, SetField(old(objs)[owner].fields, at, oldBase, base))
    {
      hide *;
      ghost var was := objs;
      AllOnlyFields(was, owner);
      Fields(was[owner], at, oldBase, base);
      if oldBase == base { return; }
      if oldBase != NULL {
        TakeWeak(owner, at);
        ghost var taken := objs;
        TakenOnly(was, owner, at);
        DestroyWeak(oldBase);
        AfterWeakOnly(taken, oldBase);
        OnlyFieldsOn(was, taken, objs, owner, Without(was[owner], at).fields);
      }
      if base != NULL {
        ghost var mid := objs;
        OnlyFieldsAlive(was, mid, owner, mid[owner].fields, base);
        NewWeak(base);
        MoreWeakOnly(mid, base);
        OnlyFieldsOn(was, mid, objs, owner, mid[owner].fields);
        ghost var more := objs;
        OnlyFieldsAlive(was, more, owner, more[owner].fields, owner);
        Store(owner, at, Weak(base));
        StoredOnly(was, more, owner, at, Weak(base));
      }
    }

    /** The references that `CFCClass_add_child` makes: a strong one to the child, as field `kids` of the
        parent, and the weak pointer that is field `at` of the child to the parent, in place of one to
        its old parent. */
    method AddChild(self: nat, child: nat, kids: nat, at: nat, oldParent: int)
      requires Valid() && IsAlive(objs, self) && IsAlive(objs, child) && kids <= |objs[self].fields|
      requires at <= |FieldsThen(objs, self, child, kids)|
      requires oldParent == NULL || (oldParent >= 0 && at < |FieldsThen(objs, self, child, kids)|
                                     && FieldsThen(objs, self, child, kids)[at] == Weak(oldParent))
      modifies this
      ensures Valid() && owned == old(owned) && watched == old(watched)
      ensures |objs| == |old(objs)| && objs[child].refcount == old(objs)[child].refcount + 1
      ensures objs[child].fields == SetField(old(FieldsThen(objs, self, child, kids)), at, oldParent, self)
      ensures self != child ==>
                objs[self].fields == WithField(old(objs)[self], kids, Strong(child)).fields
                && objs[self].refcount == old(objs)[self].refcount
      ensures forall i | 0 <= i < |objs| && i != self && i != child :: SameButWeak(old(objs)[i], objs[i])
    {
      hide Inv, StrongOf, WeakOf, StrongRefs, WeakRefs;
      var same := Incref(child);
      Store(self, kids, Strong(child));
      SetWeakField(child, at, oldParent, self);
    }

    /** `CFCWeakPtr_destroy` by a client. */
    method DestroyWeak(base: int)
      requires Valid() && (base == NULL || (base >= 0 && base in watched))
      modifies this
      ensures Valid() && owned == old(owned)
      ensures base == NULL ==> objs == old(objs) && watched == old(watched)
      ensures base != NULL ==>
                && base < |old(objs)| && old(objs)[base].weakRefcount > 0
                && watched == old(watched) - multiset{base as nat}
                && objs == old(objs)[base := AfterWeak(old(objs)[base])]
    {
      if base != NULL { ReleaseWeak(base, {}); }
    }

    /** `CFCBase_decref` by a client: it gives up one of its references and is told how many are left. */
    method Decref(self: int) returns (count: nat)
      requires Valid() && (self == NULL || (self >= 0 && self in owned))
      modifies this
      ensures Valid() && watched == old(watched)
      ensures self == NULL ==> objs == old(objs) && owned == old(owned) && count == 0
      ensures self != NULL ==>
                && owned == old(owned) - multiset{self as nat}
                && self < |old(objs)| && count == old(objs)[self].refcount - 1
      ensures Survive(old(objs), objs)
    {
      if self == NULL { return 0; }
      count := ReleaseStrong(self, {});
      assert forall i | 0 <= i < |objs| && IsAlive(objs, i) :: i in Alive(objs, {});
    }
  }

  /** The fields of the child once the parent refers to it. */
  function FieldsThen(objs: seq<Obj>, self: nat, child: nat, kids: nat): seq<Field>
    requires self < |objs| && child < |objs| && kids <= |objs[self].fields|
  {
    if self == child then WithField(objs[self], kids, Strong(child)).fields else objs[child].fields
  }

  /** Every object is counted once more for each time it is in the list. */
  ghost predicate CountedMore(was: seq<Obj>, now: seq<Obj>, elems: seq<nat>) {
    && |now| == |was|
    && forall x | 0 <= x < |was| :: now[x] == was[x].(refcount := was[x].refcount + multiset(elems)[x])
  }

  lemma CountedSame(objs: seq<Obj>)
    ensures CountedMore(objs, objs, [])
  {
  }

  lemma CountOneMore(was: seq<Obj>, now: seq<Obj>, elems: seq<nat>, i: nat)
    requires i < |elems| && CountedMore(was, now, elems[..i]) && IsAlive(was, elems[i])
    ensures IsAlive(now, elems[i]) && elems[i] < |now|
    ensures CountedMore(was, now[elems[i] := now[elems[i]].(refcount := now[elems[i]].refcount + 1)], elems[..i + 1])
    ensures multiset(elems[..i + 1]) == multiset(elems[..i]) + multiset{elems[i]}
    ensures elems[..i + 1] == elems[..i] + [elems[i]]
  {
    assert elems[..i + 1] == elems[..i] + [elems[i]];
  }

  lemma NotNull(x: nat)
    ensures x != NULL
  {
  }

  /** Giving up the references of a list one by one. */
  lemma GiveOne(all: multiset<nat>, owned: multiset<nat>, elems: seq<nat>, i: nat)
    requires i < |elems| && owned == all - multiset(elems[..i]) && multiset(elems[i..]) <= owned
    ensures elems[i] in owned && multiset(elems[i + 1..]) <= owned - multiset{elems[i]}
    ensures owned - multiset{elems[i]} == all - multiset(elems[..i + 1])
  {
    assert elems[..i + 1] == elems[..i] + [elems[i]] && elems[i..] == [elems[i]] + elems[i + 1..];
    assert multiset(elems[i..]) == multiset{elems[i]} + multiset(elems[i + 1..]);
    assert multiset(elems[..i + 1]) == multiset(elems[..i]) + multiset{elems[i]};
  }

  /** The reference behind a pointer, unless it is null. */
  function One(x: int): multiset<nat> {
    if x >= 0 then multiset{x as nat} else multiset{}
  }

  /** An object with one more field, or one less. */
  function WithField(o: Obj, at: nat, f: Field): Obj
    requires at <= |o.fields|
  {
    o.(fields := o.fields[..at] + [f] + o.fields[at..])
  }

  function Without(o: Obj, at: nat): Obj
    requires at < |o.fields|
  {
    o.(fields := o.fields[..at] + o.fields[at + 1..])
  }

  /** Setting the weak pointer at a place among the fields; null ones are left out. */
  function SetField(fields: seq<Field>, at: nat, oldBase: int, base: int): seq<Field>
    requires at <= |fields| && (oldBase != NULL ==> at < |fields|)
  {
    if oldBase == base then fields
    else fields[..at] + (if base >= 0 then [Weak(base)] else []) + fields[if oldBase != NULL then at + 1 else at..]
  }

  lemma Ones(x: int, y: int)
    ensures x == NULL ==> One(x) == multiset{}
    ensures x >= 0 ==> One(x) == multiset{x as nat}
    ensures y == NULL ==> One(y) == multiset{}
    ensures y >= 0 ==> One(y) == multiset{y as nat}
  {
  }

  /** What the fields become, step by step. */
  lemma Fields(o: Obj, at: nat, oldBase: int, base: int)
    requires at <= |o.fields| && (oldBase == NULL || oldBase >= 0) && (base == NULL || base >= 0)
    requires oldBase != NULL ==> at < |o.fields| && o.fields[at] == Weak(oldBase)
    ensures oldBase == base ==> SetField(o.fields, at, oldBase, base) == o.fields
    ensures oldBase != base ==>
              var mid := if oldBase != NULL then Without(o, at).fields else o.fields;
              && at <= |mid|
              && SetField(o.fields, at, oldBase, base) ==
                   if base != NULL then mid[..at] + [Weak(base)] + mid[at..] else mid
  {
  }

  /** Nothing but the count of weak pointers has changed, and perhaps the last of them was given up. */
  ghost predicate SameButWeak(was: Obj, now: Obj) {
    now.fields == was.fields && now.refcount == was.refcount && (was.refcount > 0 ==> now.freed == was.freed)
  }

  ghost predicate WeakOnly(was: seq<Obj>, now: seq<Obj>) {
    |now| == |was| && forall i | 0 <= i < |was| :: SameButWeak(was[i], now[i])
  }

  /** And one alive object has other fields. */
  ghost predicate OnlyFields(was: seq<Obj>, now: seq<Obj>, owner: nat, fields: seq<Field>) {
    && |now| == |was| && owner < |was|
    && (forall i | 0 <= i < |was| && i != owner :: SameButWeak(was[i], now[i]))
    && now[owner].refcount == was[owner].refcount && now[owner].freed == was[owner].freed
    && now[owner].fields == fields
  }

  lemma AllWeakOnly(objs: seq<Obj>)
    ensures WeakOnly(objs, objs)
  {
  }

  lemma AfterWeakOnly(objs: seq<Obj>, x: nat)
    requires x < |objs| && objs[x].weakRefcount > 0
    ensures WeakOnly(objs, objs[x := AfterWeak(objs[x])])
  {
  }

  lemma MoreWeakOnly(objs: seq<Obj>, x: nat)
    requires x < |objs|
    ensures WeakOnly(objs, objs[x := objs[x].(weakRefcount := objs[x].weakRefcount + 1)])
  {
  }

  lemma WeakOnlyOn(was: seq<Obj>, mid: seq<Obj>, now: seq<Obj>)
    requires WeakOnly(was, mid) && WeakOnly(mid, now)
    ensures WeakOnly(was, now)
  {
  }

  lemma WeakOnlyAlive(was: seq<Obj>, now: seq<Obj>, x: int)
    requires WeakOnly(was, now) && (x >= 0 ==> IsAlive(was, x))
    ensures x >= 0 ==> IsAlive(now, x) && x < |now| && !now[x].freed
  {
  }

  lemma AllOnlyFields(objs: seq<Obj>, owner: nat)
    requires IsAlive(objs, owner)
    ensures owner < |objs| && OnlyFields(objs, objs, owner, objs[owner].fields)
  {
  }

  lemma TakenOnly(objs: seq<Obj>, owner: nat, at: nat)
    requires IsAlive(objs, owner) && at < |objs[owner].fields|
    ensures OnlyFields(objs, objs[owner := Without(objs[owner], at)], owner, Without(objs[owner], at).fields)
  {
  }

  lemma OnlyFieldsOn(was: seq<Obj>, mid: seq<Obj>, now: seq<Obj>, owner: nat, fields: seq<Field>)
    requires OnlyFields(was, mid, owner, fields) && WeakOnly(mid, now) && IsAlive(was, owner)
    ensures OnlyFields(was, now, owner, fields) && now[owner].fields == mid[owner].fields
  {
  }

  lemma OnlyFieldsAlive(was: seq<Obj>, now: seq<Obj>, owner: nat, fields: seq<Field>, x: nat)
    requires OnlyFields(was, now, owner, fields) && IsAlive(was, x)
    ensures IsAlive(now, x) && x < |now| && !now[x].freed
  {
  }

  lemma StoredOnly(was: seq<Obj>, mid: seq<Obj>, owner: nat, at: nat, f: Field)
    requires owner < |mid| && at <= |mid[owner].fields| && OnlyFields(was, mid, owner, mid[owner].fields)
    ensures OnlyFields(was, mid[owner := WithField(mid[owner], at, f)], owner,
                       mid[owner].fields[..at] + [f] + mid[owner].fields[at..])
  {
  }

  /** What is freed stays so, and what is alive was so before and keeps its fields. */
  ghost predicate Survive(was: seq<Obj>, now: seq<Obj>) {
    && |now| == |was|
    && (forall i | 0 <= i < |was| && was[i].freed :: now[i].freed)
    && forall i: nat | IsAlive(now, i) :: IsAlive(was, i) && now[i].fields == was[i].fields
  }

  lemma AllSurvive(objs: seq<Obj>)
    ensures Survive(objs, objs)
  {
  }

  lemma SurviveOn(was: seq<Obj>, mid: seq<Obj>, now: seq<Obj>)
    requires Survive(was, mid) && Survive(mid, now)
    ensures Survive(was, now)
  {
  }

  /** What `CFCWeakPtr_destroy` leaves of the object. */
  function AfterWeak(o: Obj): Obj
    requires o.weakRefcount > 0
  {
    var o' := o.(weakRefcount := o.weakRefcount - 1);
    if o'.refcount == 0 && o'.weakRefcount == 0 then o'.(freed := true) else o'
  }

  lemma WeakReleased(objs: seq<Obj>, owned: multiset<nat>, watched: multiset<nat>, dying: set<nat>, i: nat)
    requires Inv(objs, owned, watched, dying) && i in watched
    ensures i < |objs| && objs[i].weakRefcount > 0 && !objs[i].freed
    ensures Inv(objs[i := AfterWeak(objs[i])], owned, watched - multiset{i}, dying)
    ensures Released(objs, objs[i := AfterWeak(objs[i])], dying)
  {
    hide Inv;
    HeldFacts(objs, owned, watched, dying, i);
    CountsChanged(objs, owned, watched, dying, i, AfterWeak(objs[i]), owned, watched - multiset{i}, dying);
  }

  lemma StrongReleased(objs: seq<Obj>, owned: multiset<nat>, watched: multiset<nat>, dying: set<nat>, i: nat)
    requires Inv(objs, owned, watched, dying) && i in owned && i < |objs| && objs[i].refcount > 1
    ensures var o := objs[i].(refcount := objs[i].refcount - 1);
            Inv(objs[i := o], owned - multiset{i}, watched, dying) && Released(objs, objs[i := o], dying)
              && Kept(objs, objs[i := o], dying)
  {
    hide Inv;
    HeldFacts(objs, owned, watched, dying, i);
    CountsChanged(objs, owned, watched, dying, i, objs[i].(refcount := objs[i].refcount - 1), owned - multiset{i},
                  watched, dying);
  }

  lemma BeginDestroy(objs: seq<Obj>, owned: multiset<nat>, watched: multiset<nat>, dying: set<nat>, i: nat)
    requires Inv(objs, owned, watched, dying) && i in owned && i < |objs| && objs[i].refcount == 1
    ensures i !in dying && !objs[i].freed && i in Alive(objs, dying)
    ensures Inv(objs, owned - multiset{i}, watched, dying + {i})
    ensures Released(objs, objs, dying) && Alive(objs, dying + {i}) < Alive(objs, dying)
    ensures Kept(objs, objs, dying + {i})
  {
    hide Inv;
    HeldFacts(objs, owned, watched, dying, i);
    CountsChanged(objs, owned, watched, dying, i, objs[i], owned - multiset{i}, watched, dying + {i});
    assert objs[i := objs[i]] == objs;
    assert i in Alive(objs, dying) && i !in Alive(objs, dying + {i});
  }

  /** The first field is taken out, to be released: nothing else changes. */
  lemma TakeField(objs: seq<Obj>, owned: multiset<nat>, watched: multiset<nat>, dying: set<nat>, i: nat)
    requires Inv(objs, owned, watched, dying + {i}) && i < |objs| && objs[i].fields != []
    ensures var f, objs' := objs[i].fields[0], objs[i := objs[i].(fields := objs[i].fields[1..])];
            if f.Strong? then Inv(objs', owned + multiset{f.ref}, watched, dying + {i})
            else Inv(objs', owned, watched + multiset{f.ref}, dying + {i})
  {
    hide *;
    InvParts(objs, owned, watched, dying + {i});
    var f, objs' := objs[i].fields[0], objs[i := objs[i].(fields := objs[i].fields[1..])];
    var owned' := if f.Strong? then owned + multiset{f.ref} else owned;
    var watched' := if f.Strong? then watched else watched + multiset{f.ref};
    TakenRange(objs, i);
    TakenCounts(objs, owned, watched, dying, i, owned', watched');
    TakenKnown(objs, owned, watched, dying, i, owned', watched');
    InvFrom(objs', owned', watched', dying + {i});
  }

  /** Storing a field is the reverse of taking it out. */
  lemma StoreField(objs: seq<Obj>, owned: multiset<nat>, watched: multiset<nat>, i: nat, at: nat, f: Field)
    requires Inv(objs, owned, watched, {}) && IsAlive(objs, i) && at <= |objs[i].fields|
    requires if f.Strong? then f.ref in owned else f.ref in watched
    ensures var objs' := objs[i := WithField(objs[i], at, f)];
            if f.Strong? then Inv(objs', owned - multiset{f.ref}, watched, {})
            else Inv(objs', owned, watched - multiset{f.ref}, {})
  {
    hide StrongRefs, WeakRefs;
    var objs' := objs[i := WithField(objs[i], at, f)];
    assert Without(objs'[i], at).fields == objs[i].fields;
    assert objs'[i := Without(objs'[i], at)] == objs;
    FieldTakenAt(objs', i, at);
    forall x | 0 <= x < |objs'|
      ensures InRange(objs', objs'[x].fields)
    {
      assert InRange(objs, objs[x].fields);
    }
    var owned' := if f.Strong? then owned - multiset{f.ref} else owned;
    var watched' := if f.Strong? then watched else watched - multiset{f.ref};
    forall x | 0 <= x < |objs'|
      ensures CountedAt(objs', owned', watched', {}, x)
    {
      assert CountedAt(objs, owned, watched, {}, x);
    }
  }

  /** And conversely, for a weak pointer. */
  lemma TakeFieldAt(objs: seq<Obj>, owned: multiset<nat>, watched: multiset<nat>, i: nat, at: nat)
    requires Inv(objs, owned, watched, {}) && IsAlive(objs, i) && at < |objs[i].fields| && objs[i].fields[at].Weak?
    ensures objs[i].fields[at].ref < |objs|
    ensures Inv(objs[i := Without(objs[i], at)], owned, watched + multiset{objs[i].fields[at].ref}, {})
  {
    hide StrongRefs, WeakRefs;
    var objs', f := objs[i := Without(objs[i], at)], objs[i].fields[at];
    assert InRange(objs, objs[i].fields);
    FieldTakenAt(objs, i, at);
    forall x | 0 <= x < |objs'|
      ensures InRange(objs', objs'[x].fields)
    {
      assert InRange(objs, objs[x].fields);
    }
    forall x | 0 <= x < |objs'|
      ensures CountedAt(objs', owned, watched + multiset{f.ref}, {}, x)
    {
      assert CountedAt(objs, owned, watched, {}, x);
    }
  }

  lemma AliveTaken(objs: seq<Obj>, dying: set<nat>, i: nat)
    requires i < |objs| && objs[i].fields != []
    ensures Alive(objs[i := objs[i].(fields := objs[i].fields[1..])], dying) == Alive(objs, dying)
  {
  }

  lemma TakenRange(objs: seq<Obj>, i: nat)
    requires AllInRange(objs) && i < |objs| && objs[i].fields != []
    ensures objs[i].fields[0].ref < |objs| && AllInRange(objs[i := objs[i].(fields := objs[i].fields[1..])])
  {
    var objs' := objs[i := objs[i].(fields := objs[i].fields[1..])];
    assert InRange(objs, objs[i].fields);
    forall x | 0 <= x < |objs'|
      ensures InRange(objs', objs'[x].fields)
    {
      assert InRange(objs, objs[x].fields);
    }
  }

  lemma TakenCounts(objs: seq<Obj>, owned: multiset<nat>, watched: multiset<nat>, dying: set<nat>, i: nat,
                    owned': multiset<nat>, watched': multiset<nat>)
    requires AllCounted(objs, owned, watched, dying + {i}) && i < |objs| && objs[i].fields != []
    requires owned' == (if objs[i].fields[0].Strong? then owned + multiset{objs[i].fields[0].ref} else owned)
    requires watched' == (if objs[i].fields[0].Strong? then watched else watched + multiset{objs[i].fields[0].ref})
    ensures AllCounted(objs[i := objs[i].(fields := objs[i].fields[1..])], owned', watched', dying + {i})
  {
    hide StrongRefs, WeakRefs;
    var objs' := objs[i := objs[i].(fields := objs[i].fields[1..])];
    FieldTaken(objs, i);
    forall x | 0 <= x < |objs'|
      ensures CountedAt(objs', owned', watched', dying + {i}, x)
    {
      assert CountedAt(objs, owned, watched, dying + {i}, x);
    }
  }

  lemma TakenKnown(objs: seq<Obj>, owned: multiset<nat>, watched: multiset<nat>, dying: set<nat>, i: nat,
                   owned': multiset<nat>, watched': multiset<nat>)
    requires AllKnown(objs, owned, watched, dying + {i}) && i < |objs| && objs[i].fields != []
    requires objs[i].fields[0].ref < |objs|
    requires owned' == (if objs[i].fields[0].Strong? then owned + multiset{objs[i].fields[0].ref} else owned)
    requires watched' == (if objs[i].fields[0].Strong? then watched else watched + multiset{objs[i].fields[0].ref})
    ensures AllKnown(objs[i := objs[i].(fields := objs[i].fields[1..])], owned', watched', dying + {i})
  {
  }

  /** Releasing the field taken from the dying object. */
  lemma FieldReleased(was: seq<Obj>, before: seq<Obj>, mid: seq<Obj>, now: seq<Obj>, dying: set<nat>, i: nat)
    requires Released(was, before, dying) && i in Alive(was, dying) && i < |before| && before[i].fields != []
    requires Alive(before, dying + {i}) < Alive(was, dying) && !before[i].freed
    requires mid == before[i := before[i].(fields := before[i].fields[1..])] && Released(mid, now, dying + {i})
    requires Kept(was, before, dying + {i}) && Kept(mid, now, dying + {i})
    ensures Released(was, now, dying) && Alive(now, dying + {i}) < Alive(was, dying) && Kept(was, now, dying + {i})
    ensures i < |now| == |was| && !now[i].freed && |now[i].fields| < |before[i].fields|
  {
    assert Alive(mid, dying + {i}) == Alive(before, dying + {i});
    assert Alive(now, dying) <= Alive(now, dying + {i}) + {i};
  }

  lemma EndDestroy(objs: seq<Obj>, owned: multiset<nat>, watched: multiset<nat>, dying: set<nat>, i: nat)
    requires Inv(objs, owned, watched, dying + {i}) && i < |objs| && !objs[i].freed && objs[i].fields == []
    requires i !in dying
    ensures objs[i].weakRefcount == 0 ==> Inv(objs[i := objs[i].(freed := true)], owned, watched, dying)
    ensures objs[i].weakRefcount > 0 ==> Inv(objs[i := objs[i].(refcount := 0)], owned, watched, dying)
  {
    hide Inv;
    DyingFacts(objs, owned, watched, dying + {i}, i);
    assert OnlyAt(i, owned, watched, dying + {i}, owned, watched, dying);
    if objs[i].weakRefcount == 0 {
      CountsChanged(objs, owned, watched, dying + {i}, i, objs[i].(freed := true), owned, watched, dying);
    } else {
      CountsChanged(objs, owned, watched, dying + {i}, i, objs[i].(refcount := 0), owned, watched, dying);
    }
  }

  lemma DyingFacts(objs: seq<Obj>, owned: multiset<nat>, watched: multiset<nat>, dying: set<nat>, i: nat)
    requires Inv(objs, owned, watched, dying) && i < |objs|
    ensures Counted(objs[i], StrongRefs(objs, i) + owned[i], WeakRefs(objs, i) + watched[i], i in dying)
  {
    assert CountedAt(objs, owned, watched, dying, i);
  }

  lemma Destroyed(was: seq<Obj>, last: seq<Obj>, now: seq<Obj>, dying: set<nat>, i: nat)
    requires Released(was, last, dying) && Alive(last, dying + {i}) < Alive(was, dying) && i < |last| && i !in dying
    requires now == last[i := last[i].(freed := true)] || now == last[i := last[i].(refcount := 0)]
    requires Kept(was, last, dying + {i})
    ensures Released(was, now, dying) && Kept(was, now, dying)
  {
    assert Alive(now, dying) <= Alive(last, dying + {i});
  }

  /** What is known of an object to which a reference is held. */
  lemma HeldFacts(objs: seq<Obj>, owned: multiset<nat>, watched: multiset<nat>, dying: set<nat>, i: nat)
    requires Inv(objs, owned, watched, dying) && (i in owned || i in watched)
    ensures i < |objs| && !objs[i].freed
    ensures Counted(objs[i], StrongRefs(objs, i) + owned[i], WeakRefs(objs, i) + watched[i], i in dying)
    ensures i in owned ==> i !in dying && objs[i].refcount > 0
    ensures i in watched ==> objs[i].weakRefcount > 0
  {
    assert i < |objs|;
    assert CountedAt(objs, owned, watched, dying, i);
  }

  lemma AllocatedOk(objs: seq<Obj>, owned: multiset<nat>, watched: multiset<nat>)
    requires Inv(objs, owned, watched, {})
    ensures Inv(objs + [Obj(1, 0, [], false)], owned + multiset{|objs|}, watched, {})
  {
    var o := Obj(1, 0, [], false);
    var objs' := objs + [o];
    assert objs'[..|objs|] == objs;
    NoneBeyond(objs, |objs|, |objs|);
    forall i | 0 <= i < |objs'|
      ensures InRange(objs', objs'[i].fields)
    {
      if i < |objs| { assert InRange(objs, objs[i].fields); }
    }
    assert |objs| !in owned && |objs| !in watched;
    forall i | 0 <= i < |objs'|
      ensures CountedAt(objs', owned + multiset{|objs|}, watched, {}, i)
    {
      assert i < |objs| ==> CountedAt(objs, owned, watched, {}, i);
    }
  }

  lemma {:induction false} NoneBeyond(objs: seq<Obj>, n: nat, x: nat)
    requires x >= n && forall i | 0 <= i < |objs| :: forall k | 0 <= k < |objs[i].fields| :: objs[i].fields[k].ref < n
    ensures StrongRefs(objs, x) == 0 && WeakRefs(objs, x) == 0
  {
    if objs != [] {
      NoneBeyond(objs[..|objs| - 1], n, x);
      NoneAmong(objs[|objs| - 1].fields, n, x);
    }
  }

  lemma {:induction false} NoneAmong(fields: seq<Field>, n: nat, x: nat)
    requires x >= n && forall k | 0 <= k < |fields| :: fields[k].ref < n
    ensures StrongOf(fields, x) == 0 && WeakOf(fields, x) == 0
  {
    if fields != [] { NoneAmong(fields[1..], n, x); }
  }
}
