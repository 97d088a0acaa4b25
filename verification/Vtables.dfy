/** `CFCClass_grow_tree`: every class gets its member variables and its vtable from its parent,
    down the inheritance tree. */
module Vtables {

  datatype Option<T> = None | Some(value: T)

  /** What `CFCType_equals` compares. */
  datatype TypeFlag = CONST | NULLABLE | VOID | OBJECT | PRIMITIVE | INTEGER | FLOATING | VA_LIST | ARBITRARY
                    | COMPOSITE | INCREMENTED | DECREMENTED

  datatype Type = Type(flags: set<TypeFlag>, indirection: int, specifier: string, child: Option<Type>,
                       array_: Option<string>)

  /** A parameter, with the text of its initial value if it has one. */
  datatype Param = Param(name: string, typ: Type, initial: Option<string>)

  /** A method object: its name, the class that declares it, whether it is novel and final, whether it
      is public, its parameters behind the first, which is self, and the type of its result. */
  datatype Meth = Meth(name: string, cls: nat, novel: bool, final: bool, isPublic: bool, params: seq<Param>, ret: Type)

  /** The two methods have the same name, exposure and parameters, with the same names, types and initial
      values.  Their results have the same type, or both are objects, of the same class or not, that
      agree in being const, nullable, incremented and decremented. */
  ghost predicate SameSignature(self: Meth, other: Meth) {
    && self.name == other.name && self.isPublic == other.isPublic
    && |self.params| == |other.params|
    && (forall i | 0 <= i < |self.params| ::
          && self.params[i].name == other.params[i].name
          && self.params[i].typ == other.params[i].typ
          && self.params[i].initial == other.params[i].initial)
    && if OBJECT in self.ret.flags then
         && OBJECT in other.ret.flags
         && (CONST in self.ret.flags <==> CONST in other.ret.flags)
         && (NULLABLE in self.ret.flags <==> NULLABLE in other.ret.flags)
         && (INCREMENTED in self.ret.flags <==> INCREMENTED in other.ret.flags)
         && (DECREMENTED in self.ret.flags <==> DECREMENTED in other.ret.flags)
       else self.ret == other.ret
  }

  /** Such methods fall into classes: a method that may take a slot may also take any slot that
      its predecessor may. */
  lemma SameSignatureIsEquivalence(a: Meth, b: Meth, c: Meth)
    ensures SameSignature(a, a)
    ensures SameSignature(a, b) ==> SameSignature(b, a)
    ensures SameSignature(a, b) && SameSignature(b, c) ==> SameSignature(a, c)
  {
  }

  /** `CFCType_similar`. */
  predicate Similar(a: Type, b: Type) {
    forall f | f in {CONST, NULLABLE, INCREMENTED, DECREMENTED, OBJECT} :: f in a.flags <==> f in b.flags
  }

  /** `CFCMethod_compatible`: the result may be another class of objects. */
  method Compatible(self: Meth, other: Meth) returns (same: bool)
    ensures same <==> SameSignature(self, other)
  {
    if self.name != other.name { return false; }
    if self.isPublic != other.isPublic { return false; }
    var i := 0;
    while true
      invariant 0 <= i <= |self.params| && i <= |other.params|
      invariant self.params[..i] == other.params[..i]
      decreases |self.params| - i
    {
      if (i < |self.params|) != (i < |other.params|) { return false; }
      if i >= |self.params| { break; }
      var mine, others := self.params[i], other.params[i];
      assert mine == self.params[i] && others == other.params[i];
      if mine.initial != others.initial { return false; }
      if mine.typ != others.typ { return false; }
      if mine.name != others.name { return false; }
      i := i + 1;
    }
    if OBJECT in self.ret.flags {
      return OBJECT in other.ret.flags && Similar(self.ret, other.ret);
    }
    return self.ret == other.ret;
  }

  /** What `CFCMethod_override` allows. */
  ghost predicate Overridable(self: Meth, orig: Meth) {
    !orig.final && SameSignature(self, orig)
  }

  /** What a class is made with.  Classes, methods and variables are known by their numbers. */
  datatype ClassDecl = ClassDecl(parent: Option<nat>, children: seq<nat>, freshMethods: seq<nat>, freshVars: seq<nat>,
                                 isFinal: bool, parcel: nat)

  // ---------------------------------------------------------------- the inheritance tree

  /** The classes form trees: `add_child` set the parent of every child, and refuses children of
      final classes. */
  ghost predicate Tree(classes: seq<ClassDecl>, depth: seq<nat>, deepest: nat) {
    && |depth| == |classes|
    && (forall c | 0 <= c < |classes| ::
        depth[c] <= deepest && ChildrenOk(classes, depth, c) && ParentOk(classes, depth, c))
  }

  ghost predicate ChildrenOk(classes: seq<ClassDecl>, depth: seq<nat>, c: nat)
    requires |depth| == |classes| && c < |classes|
  {
    && (forall k | 0 <= k < |classes[c].children| ::
          var d := classes[c].children[k];
          d < |classes| && classes[d].parent == Some(c) && depth[d] == depth[c] + 1)
    && (forall j, k | 0 <= j < k < |classes[c].children| :: classes[c].children[j] != classes[c].children[k])
    && (classes[c].isFinal ==> classes[c].children == [])
  }

  ghost predicate ParentOk(classes: seq<ClassDecl>, depth: seq<nat>, c: nat)
    requires |depth| == |classes| && c < |classes|
  {
    match classes[c].parent
    case None => true
    case Some(p) => p < |classes| && c in classes[p].children && depth[c] == depth[p] + 1
  }

  /** d is c or one of its descendants. */
  ghost predicate Under(classes: seq<ClassDecl>, depth: seq<nat>, d: nat, c: nat)
    requires |depth| == |classes| && d < |classes|
    decreases depth[d]
  {
    || d == c
    || match classes[d].parent
       case None => false
       case Some(p) => p < |classes| && depth[p] < depth[d] && Under(classes, depth, p, c)
  }

  lemma {:induction false} UnderDeeper(classes: seq<ClassDecl>, depth: seq<nat>, deepest: nat, d: nat, c: nat)
    requires Tree(classes, depth, deepest) && d < |classes| && c < |classes| && Under(classes, depth, d, c)
    ensures depth[d] >= depth[c] && (depth[d] == depth[c] ==> d == c)
    decreases depth[d]
  {
    if d != c {
      assert ParentOk(classes, depth, d);
      UnderDeeper(classes, depth, deepest, classes[d].parent.value, c);
    }
  }

  /** A descendant of c is c itself or under one of its children, and under one only. */
  lemma {:induction false} UnderChild(classes: seq<ClassDecl>, depth: seq<nat>, deepest: nat, d: nat, c: nat)
    requires Tree(classes, depth, deepest) && d < |classes| && c < |classes| && Under(classes, depth, d, c) && d != c
    ensures exists k ::
              && 0 <= k < |classes[c].children| && classes[c].children[k] < |classes|
              && Under(classes, depth, d, classes[c].children[k])
    decreases depth[d]
  {
    assert ParentOk(classes, depth, d);
    var p := classes[d].parent.value;
    if p == c {
      var k :| 0 <= k < |classes[c].children| && classes[c].children[k] == d;
      assert Under(classes, depth, d, classes[c].children[k]);
    } else {
      UnderChild(classes, depth, deepest, p, c);
      var k :| 0 <= k < |classes[c].children| && classes[c].children[k] < |classes|
          && Under(classes, depth, p, classes[c].children[k]);
      assert Under(classes, depth, d, classes[c].children[k]);
    }
  }

  lemma {:induction false} UnderOne(classes: seq<ClassDecl>, depth: seq<nat>, deepest: nat, d: nat, c: nat, c': nat)
    requires Tree(classes, depth, deepest) && d < |classes| && c < |classes| && c' < |classes| && depth[c] == depth[c']
    requires Under(classes, depth, d, c) && Under(classes, depth, d, c')
    ensures c == c'
    decreases depth[d]
  {
    UnderDeeper(classes, depth, deepest, d, c);
    UnderDeeper(classes, depth, deepest, d, c');
    if d != c && d != c' {
      assert ParentOk(classes, depth, d);
      UnderOne(classes, depth, deepest, classes[d].parent.value, c, c');
    }
  }

  /** A child is under its parent with everything under it. */
  lemma {:induction false} UnderParent(classes: seq<ClassDecl>, depth: seq<nat>, deepest: nat, d: nat, c: nat, k: nat)
    requires Tree(classes, depth, deepest) && d < |classes| && c < |classes| && k < |classes[c].children|
    requires classes[c].children[k] < |classes| && Under(classes, depth, d, classes[c].children[k])
    ensures Under(classes, depth, d, c) && d != c
    decreases depth[d]
  {
    assert ChildrenOk(classes, depth, c);
    var e := classes[c].children[k];
    UnderDeeper(classes, depth, deepest, d, e);
    if d != e {
      assert ParentOk(classes, depth, d);
      UnderParent(classes, depth, deepest, classes[d].parent.value, c, k);
    } else {
      assert Under(classes, depth, c, c);
    }
  }

  // ---------------------------------------------------------------- methods by name

  predicate Known(meths: seq<Meth>, list: seq<nat>) {
    forall i | 0 <= i < |list| :: list[i] < |meths|
  }

  /** `S_find_func`: the first method of that name. */
  function FindFunc(meths: seq<Meth>, list: seq<nat>, name: string): (m: Option<nat>)
    requires Known(meths, list)
    ensures m.Some? ==> m.value in list && meths[m.value].name == name
    ensures m.None? ==> forall i | 0 <= i < |list| :: meths[list[i]].name != name
  {
    if list == [] then None
    else if meths[list[0]].name == name then Some(list[0])
    else FindFunc(meths, list[1..], name)
  }

  lemma {:induction false} FoundIsOnly(meths: seq<Meth>, list: seq<nat>, i: nat)
    requires Known(meths, list) && i < |list|
    requires forall k | 0 <= k < i :: meths[list[k]].name != meths[list[i]].name
    ensures FindFunc(meths, list, meths[list[i]].name) == Some(list[i])
  {
    if i > 0 { FoundIsOnly(meths, list[1..], i - 1); }
  }

  /** The methods objects are only added to, and what they are does not change, but for being novel. */
  ghost predicate Extends(was: seq<Meth>, meths: seq<Meth>) {
    |was| <= |meths| && forall m | 0 <= m < |was| :: meths[m].(novel := was[m].novel) == was[m]
  }

  lemma {:induction false} FindExtends(was: seq<Meth>, meths: seq<Meth>, list: seq<nat>, name: string)
    requires Extends(was, meths) && Known(was, list)
    ensures Known(meths, list) && FindFunc(meths, list, name) == FindFunc(was, list, name)
  {
    if list != [] { FindExtends(was, meths, list[1..], name); }
  }

  /** The fresh methods of class c are its own, and no two have the same name. */
  ghost predicate FreshOk(meths: seq<Meth>, own: seq<nat>, c: nat) {
    && Known(meths, own)
    && (forall i | 0 <= i < |own| :: meths[own[i]].cls == c)
    && (forall i, j | 0 <= i < j < |own| :: meths[own[i]].name != meths[own[j]].name)
  }

  /** The fresh methods that override nothing. */
  function NovelOf(meths: seq<Meth>, parents: seq<nat>, own: seq<nat>): seq<nat>
    requires Known(meths, parents) && Known(meths, own)
  {
    if own == [] then []
    else
      var n := |own| - 1;
      NovelOf(meths, parents, own[..n]) + if FindFunc(meths, parents, meths[own[n]].name).None? then [own[n]] else []
  }

  /** What a slot inherited from the parent is to hold: the overriding method, if there is one. */
  function Inherited(meths: seq<Meth>, own: seq<nat>, m: nat): nat
    requires Known(meths, own) && m < |meths|
  {
    match FindFunc(meths, own, meths[m].name)
    case Some(o) => o
    case None => m
  }

  /** m' stands for m: the same object, or in a final class a final copy of it. */
  ghost predicate StandsFor(meths: seq<Meth>, isFinal: bool, m': nat, m: nat) {
    && m < |meths| && m' < |meths|
    && if isFinal && !meths[m].final then meths[m'] == meths[m].(final := true, novel := meths[m'].novel) else m' == m
  }

  ghost predicate AllStandFor(meths: seq<Meth>, isFinal: bool, list: seq<nat>, model: seq<nat>) {
    |list| == |model| && forall i | 0 <= i < |list| :: StandsFor(meths, isFinal, list[i], model[i])
  }

  function InheritedAll(meths: seq<Meth>, parents: seq<nat>, own: seq<nat>): (list: seq<nat>)
    requires Known(meths, parents) && Known(meths, own)
    ensures |list| == |parents| && Known(meths, list)
    ensures forall i | 0 <= i < |parents| :: list[i] == Inherited(meths, own, parents[i])
  {
    if parents == [] then []
    else
      var n := |parents| - 1;
      InheritedAll(meths, parents[..n], own) + [Inherited(meths, own, parents[n])]
  }

  /** The vtable of a child before finalization: the slots of the parent in their order, then the
      novel methods. */
  function VtableModel(meths: seq<Meth>, parents: seq<nat>, own: seq<nat>): seq<nat>
    requires Known(meths, parents) && Known(meths, own)
  {
    InheritedAll(meths, parents, own) + NovelOf(meths, parents, own)
  }

  /** No final method is overridden, and none by a method whose signature does not match. */
  ghost predicate OverridesLegal(meths: seq<Meth>, parents: seq<nat>, own: seq<nat>)
    requires Known(meths, parents) && Known(meths, own)
  {
    forall i | 0 <= i < |parents| :: LegalAt(meths, own, parents[i])
  }

  ghost predicate LegalAt(meths: seq<Meth>, own: seq<nat>, m: nat)
    requires Known(meths, own) && m < |meths|
  {
    var child := FindFunc(meths, own, meths[m].name);
    child.Some? ==> Overridable(meths[child.value], meths[m])
  }

  lemma {:induction false} NovelKnown(meths: seq<Meth>, parents: seq<nat>, own: seq<nat>)
    requires Known(meths, parents) && Known(meths, own)
    ensures Known(meths, NovelOf(meths, parents, own))
    ensures forall m :: m in NovelOf(meths, parents, own) <==> m in own && FindFunc(meths, parents, meths[m].name).None?
  {
    if own != [] {
      var n := |own| - 1;
      NovelKnown(meths, parents, own[..n]);
      assert own == own[..n] + [own[n]];
    }
  }

  lemma {:induction false} ModelExtends(was: seq<Meth>, meths: seq<Meth>, parents: seq<nat>, own: seq<nat>)
    requires Extends(was, meths) && Known(was, parents) && Known(was, own)
    ensures Known(meths, parents) && Known(meths, own)
    ensures NovelOf(meths, parents, own) == NovelOf(was, parents, own)
    ensures VtableModel(meths, parents, own) == VtableModel(was, parents, own)
  {
    NovelExtends(was, meths, parents, own);
    forall i | 0 <= i < |parents|
      ensures Inherited(meths, own, parents[i]) == Inherited(was, own, parents[i])
    {
      FindExtends(was, meths, own, was[parents[i]].name);
    }
    assert InheritedAll(meths, parents, own) == InheritedAll(was, parents, own);
  }

  lemma {:induction false} NovelExtends(was: seq<Meth>, meths: seq<Meth>, parents: seq<nat>, own: seq<nat>)
    requires Extends(was, meths) && Known(was, parents) && Known(was, own)
    ensures Known(meths, parents) && Known(meths, own)
    ensures NovelOf(meths, parents, own) == NovelOf(was, parents, own)
  {
    if own != [] {
      var n := |own| - 1;
      NovelExtends(was, meths, parents, own[..n]);
      FindExtends(was, meths, parents, was[own[n]].name);
    }
  }

  /** Only the fresh methods of class c may have lost their novelty. */
  ghost predicate OnlyOverridden(was: seq<Meth>, meths: seq<Meth>, own: seq<nat>) {
    |was| <= |meths| && forall m | 0 <= m < |was| && m !in own :: meths[m] == was[m]
  }

  /** Which fresh methods are still novel after the first i slots of the parent. */
  ghost predicate NovelSoFar(meths: seq<Meth>, parents: seq<nat>, own: seq<nat>, i: nat)
    requires Known(meths, parents) && Known(meths, own) && i <= |parents|
  {
    forall m | m in own :: meths[m].novel <==> forall k | 0 <= k < i :: meths[parents[k]].name != meths[m].name
  }

  // ---------------------------------------------------------------- growing the tree

  class Hierarchy {
    const classes: seq<ClassDecl>
    ghost const depth: seq<nat>
    ghost const deepest: nat

    var meths: seq<Meth>
    var methods: seq<seq<nat>>
    var memberVars: seq<seq<nat>>
    var treeGrown: seq<bool>

    constructor (classes: seq<ClassDecl>, meths: seq<Meth>, ghost depth: seq<nat>, ghost deepest: nat)
      ensures this.classes == classes && this.meths == meths && this.depth == depth && this.deepest == deepest
      ensures |methods| == |memberVars| == |treeGrown| == |classes|
      ensures forall c | 0 <= c < |classes| :: !treeGrown[c]
    {
      this.classes, this.meths, this.depth, this.deepest := classes, meths, depth, deepest;
      methods, memberVars := seq(|classes|, _ => []), seq(|classes|, _ => []);
      treeGrown := seq(|classes|, _ => false);
    }

    /** `CFCMethod_override`: a final method cannot be overridden, nor one with another signature; else
        the overriding method is no longer novel. */
    method Override(m: nat, orig: nat) returns (ok: bool)
      requires m < |meths| && orig < |meths|
      modifies this`meths
      ensures ok <==> Overridable(old(meths)[m], old(meths)[orig])
      ensures meths == if ok then old(meths)[m := old(meths)[m].(novel := false)] else old(meths)
    {
      if meths[orig].final { return false; }
      var same := Compatible(meths[m], meths[orig]);
      if !same { return false; }
      meths := meths[m := meths[m].(novel := false)];
      return true;
    }

    /** The slots of the parent, each with the method that overrides it, if there is one. */
    method GatherInherited(parents: seq<nat>, own: seq<nat>, c: nat) returns (ok: bool, list: seq<nat>)
      requires FreshOk(meths, own, c) && Known(meths, parents) && forall m | m in own :: meths[m].novel
      modifies this`meths
      ensures Extends(old(meths), meths) && OnlyOverridden(old(meths), meths, own) && |meths| == |old(meths)|
      ensures ok <==> OverridesLegal(old(meths), parents, own)
      ensures ok ==> NovelSoFar(meths, parents, own, |parents|)
      ensures ok ==> list == InheritedAll(old(meths), parents, own)
    {
      hide *;
      ghost var was := meths;
      list := [];
      NothingGathered(meths, parents, own, c);
      for i := 0 to |parents|
        invariant Gathered(was, meths, parents, own, i, list)
      {
        GatheredKnown(was, meths, parents, own, i, list);
        var method_ := parents[i];
        var child := FindFunc(meths, own, meths[method_].name);
        if child.Some? {
          ghost var before := meths;
          ok := Override(child.value, method_);
          if !ok {
            GatherIllegal(was, before, parents, own, i, list);
            return false, list;
          }
          GatherOverridden(was, before, parents, own, c, i, list, child.value);
          list := list + [child.value];
        } else {
          GatherKept(was, meths, parents, own, i, list);
          list := list + [method_];
        }
      }
      GatheredAll(was, meths, parents, own, list);
      ok := true;
    }

    /** The methods which were not marked a moment ago are appended. */
    method AppendNovel(parents: seq<nat>, own: seq<nat>, list0: seq<nat>) returns (list: seq<nat>)
      requires Known(meths, own) && Known(meths, parents) && NovelSoFar(meths, parents, own, |parents|)
      ensures list == list0 + NovelOf(meths, parents, own)
    {
      hide NovelSoFar, FindFunc;
      list := list0;
      for i := 0 to |own|
        invariant list == list0 + NovelOf(meths, parents, own[..i])
      {
        assert own[..i + 1][..i] == own[..i];
        NovelIff(meths, parents, own, own[i]);
        if meths[own[i]].novel {
          list := list + [own[i]];
        }
      }
      assert own[..|own|] == own;
    }

    /** In a final class every method becomes final: `CFCMethod_finalize` makes a copy. */
    method FinalizeAll(list0: seq<nat>) returns (list: seq<nat>)
      requires Known(meths, list0)
      modifies this`meths
      ensures |meths| >= |old(meths)| && meths[..|old(meths)|] == old(meths)
      ensures AllStandFor(meths, true, list, list0)
      ensures forall i | 0 <= i < |list| :: meths[list[i]].novel == meths[list0[i]].novel
    {
      list := list0;
      for i := 0 to |list0|
        invariant |meths| >= |old(meths)| && meths[..|old(meths)|] == old(meths) && |list| == |list0|
        invariant forall k | 0 <= k < i ::
            StandsFor(meths, true, list[k], list0[k]) && meths[list[k]].novel == meths[list0[k]].novel
        invariant forall k | i <= k < |list0| :: list[k] == list0[k]
      {
        if !meths[list[i]].final {
          var m := meths[list[i]];
          meths := meths + [m.(final := true)];
          list := list[i := |meths| - 1];
        }
      }
    }

    /** The vtable of class c from that of its parent. */
    method Inherit(parents: seq<nat>, c: nat) returns (ok: bool, list: seq<nat>)
      requires c < |classes| && Ready(meths, classes[c].freshMethods, c) && Known(meths, parents)
      modifies this`meths
      ensures Extends(old(meths), meths) && OnlyOverridden(old(meths), meths, classes[c].freshMethods)
      ensures Known(old(meths), classes[c].freshMethods)
      ensures ok <==> OverridesLegal(old(meths), parents, classes[c].freshMethods)
      ensures ok ==> InheritsFrom(meths, classes[c], parents, list)
    {
      hide FreshOk, Extends, OnlyOverridden, NovelSoFar, OverridesLegal, AllStandFor, InheritsFrom;
      ghost var was := meths;
      ReadyParts(meths, classes[c].freshMethods, c);
      ok, list := GatherInherited(parents, classes[c].freshMethods, c);
      KnownStill(was, meths, parents, classes[c].freshMethods);
      if ok {
        ghost var mid := meths;
        list := AppendNovel(parents, classes[c].freshMethods, list);
        ModelExtends(was, meths, parents, classes[c].freshMethods);
        NovelKnown(meths, parents, classes[c].freshMethods);
        InheritedSame(was, mid, parents, classes[c].freshMethods);
        if classes[c].isFinal {
          list := FinalizeAll(list);
          Appended(was, mid, meths, classes[c].freshMethods);
          FinalInherits(mid, meths, classes[c], parents, list);
        } else {
          PlainInherits(meths, classes[c], parents, list);
        }
      }
    }

    ghost function State(): Heap
      reads this
    {
      Heap(meths, methods, treeGrown)
    }

    ghost predicate Sized()
      reads this
    {
      |methods| == |memberVars| == |treeGrown| == |classes| && Tree(classes, depth, deepest)
    }

    /** `S_bequeath_methods`: everything below the class gets its vtable, or some class there
        overrides a final method. */
    method BequeathMethods(self: nat) returns (ok: bool)
      requires Sized() && self < |classes| && Known(meths, methods[self]) && AllReady(classes, depth, self, State())
      modifies this`meths, this`methods, this`treeGrown
      ensures Sized() && OnlyBelow(classes, depth, self, old(State()), State())
      ensures ok ==> AllGrown(classes, depth, self, State())
      ensures !ok ==> SomeIllegal(classes, depth, self, State())
      decreases deepest - depth[self], 1
    {
      hide AllReady, AllGrown, OnlyBelow, SomeIllegal, Tree;
      DepthBound(classes, depth, deepest, self);
      NothingBequeathed(classes, depth, self, State());
      for k := 0 to |classes[self].children|
        invariant Sized() && OnlyBelow(classes, depth, self, old(State()), State()) && Known(meths, methods[self])
        invariant Bequeathed(classes, depth, self, k, State())
      {
        ghost var before := State();
        ok := BequeathTo(self, k);
        OnlyBelowTrans(classes, depth, self, old(State()), before, State());
        if !ok { return; }
      }
      AllBequeathed(classes, depth, deepest, self, State());
      ok := true;
    }

    /** One child, and everything below it. */
    method BequeathTo(self: nat, k: nat) returns (ok: bool)
      requires Sized() && self < |classes| && k < |classes[self].children| && Known(meths, methods[self])
      requires Bequeathed(classes, depth, self, k, State())
      modifies this`meths, this`methods, this`treeGrown
      ensures Sized() && OnlyBelow(classes, depth, self, old(State()), State())
      ensures ok ==> Known(meths, methods[self]) && Bequeathed(classes, depth, self, k + 1, State())
      ensures !ok ==> SomeIllegal(classes, depth, self, State())
      decreases deepest - depth[self], 0
    {
      hide AllReady, AllGrown, OnlyBelow, SomeIllegal, Tree, Bequeathed, Extends, OnlyOverridden, InheritsFrom;
      hide OverridesLegal;
      ChildFacts(classes, depth, deepest, self, k);
      ghost var h0 := State();
      var child := classes[self].children[k];
      ChildReady(classes, depth, deepest, self, k, h0);
      var list;
      ok, list := Inherit(methods[self], child);
      if !ok {
        IllegalChild(classes, depth, deepest, self, k, h0, State());
        return;
      }
      methods := methods[child := list];
      ghost var h1 := State();
      ChildInherits(classes, depth, deepest, self, k, h0, h1);
      ok := BequeathMethods(child);
      ghost var h2 := State();
      if !ok {
        BelowChild(classes, depth, deepest, self, k, h0, h1, h2);
        return;
      }
      treeGrown := treeGrown[child := true];
      ChildBequeathed(classes, depth, deepest, self, k, h0, h1, h2);
    }

    /** `S_bequeath_member_vars`: below the class, the variables of the parent and then one's own. */
    method BequeathMemberVars(self: nat)
      requires Sized() && self < |classes|
      modifies this`memberVars
      ensures Sized() && VarsBelow(classes, depth, self, old(memberVars), memberVars)
      ensures forall d: nat | Strict(classes, depth, d, self) :: VarsGrown(classes, memberVars, d)
      decreases deepest - depth[self]
    {
      hide Tree, VarsGrown, VarsBelow, BelowFirst, Strict;
      DepthBound(classes, depth, deepest, self);
      NoVarsYet(classes, depth, self, memberVars);
      for k := 0 to |classes[self].children|
        invariant Sized() && VarsBelow(classes, depth, self, old(memberVars), memberVars)
        invariant VarsFirst(classes, depth, self, k, memberVars)
      {
        ChildFacts(classes, depth, deepest, self, k);
        var child := classes[self].children[k];
        ghost var v0 := memberVars;
        memberVars := memberVars[child := memberVars[self] + classes[child].freshVars];
        ghost var v1 := memberVars;
        BequeathMemberVars(child);
        VarsOfChild(classes, depth, deepest, self, k, old(memberVars), v0, v1, memberVars);
      }
      AllVars(classes, depth, deepest, self, memberVars);
    }

    /** `CFCClass_grow_tree`, on a class without a parent. */
    method GrowTree(self: nat) returns (ok: bool)
      requires Sized() && self < |classes| && classes[self].parent.None?
      requires forall d: nat | d < |classes| && Under(classes, depth, d, self) ::
               Ready(meths, classes[d].freshMethods, d)
      modifies this
      ensures Sized() && (old(treeGrown[self]) ==> !ok)
      ensures ok ==> Whole(classes, depth, deepest, self, State(), memberVars) && treeGrown[self]
      ensures !ok && !old(treeGrown[self]) ==> SomeIllegal(classes, depth, self, State())
    {
      hide Tree, VarsGrown, Ready, AllGrown, SomeIllegal, OnlyBelow, FreshOk, Under;
      if treeGrown[self] { return false; }
      DepthBound(classes, depth, deepest, self);
      UnderSelf(classes, depth, self);
      memberVars := memberVars[self := classes[self].freshVars];
      BequeathMemberVars(self);
      methods := methods[self := classes[self].freshMethods];
      ReadyParts(meths, classes[self].freshMethods, self);
      ghost var h := State();
      ok := BequeathMethods(self);
      if ok {
        RootKept(classes, depth, self, h, State());
        GrownRoot(classes, depth, self, State());
        treeGrown := treeGrown[self := true];
      }
    }

    /** `CFCClass_num_non_package_ivars`: how many variables come from outside the parcel. */
    method NumNonPackageIvars(self: nat) returns (n: nat)
      requires Sized() && self < |classes|
      requires forall d: nat | d < |classes| && Under(classes, depth, self, d) :: VarsOk(classes, memberVars, d)
      ensures n <= |memberVars[self]| && memberVars[self][n..] == ParcelVars(classes, depth, self, classes[self].parcel)
    {
      hide Tree, VarsOk, Under, ParcelVars, Above, Before;
      var ancestor := classes[self].parent;
      ghost var last := self;
      ghost var own := classes[self].freshVars;
      ClimbStart(classes, depth, deepest, memberVars, self);
      while ancestor.Some? && classes[ancestor.value].parcel == classes[self].parcel
        invariant Climbed(classes, depth, memberVars, self, last, own) && ancestor == classes[last].parent
        invariant ancestor.Some? ==> ancestor.value < |classes|
        decreases depth[last]
      {
        ClimbStep(classes, depth, deepest, memberVars, self, last, own);
        last := ancestor.value;
        own := classes[last].freshVars + own;
        ancestor := classes[ancestor.value].parent;
      }
      ClimbEnd(classes, depth, deepest, memberVars, self, last, own);
      n := if ancestor.Some? then |memberVars[ancestor.value]| else 0;
    }
  }

  // ---------------------------------------------------------------- what growing does

  datatype Heap = Heap(meths: seq<Meth>, methods: seq<seq<nat>>, grown: seq<bool>)

  /** d is a proper descendant of c. */
  ghost predicate Strict(classes: seq<ClassDecl>, depth: seq<nat>, d: nat, c: nat) {
    |depth| == |classes| && d < |classes| && d != c && Under(classes, depth, d, c)
  }

  /** Class d has its vtable from its parent. */
  ghost predicate GrownIn(classes: seq<ClassDecl>, h: Heap, d: nat) {
    && d < |classes| && d < |h.methods| && d < |h.grown| && classes[d].parent.Some?
      && classes[d].parent.value < |h.methods|
    && InheritsFrom(h.meths, classes[d], h.methods[classes[d].parent.value], h.methods[d])
    && h.grown[d]
  }

  /** Class d overrides a final method that it inherits. */
  ghost predicate IllegalIn(classes: seq<ClassDecl>, h: Heap, d: nat) {
    && d < |classes| && classes[d].parent.Some? && classes[d].parent.value < |h.methods|
    && Known(h.meths, h.methods[classes[d].parent.value]) && Known(h.meths, classes[d].freshMethods)
    && !OverridesLegal(h.meths, h.methods[classes[d].parent.value], classes[d].freshMethods)
  }

  ghost predicate AllReady(classes: seq<ClassDecl>, depth: seq<nat>, c: nat, h: Heap) {
    forall d: nat | Strict(classes, depth, d, c) :: Ready(h.meths, classes[d].freshMethods, d)
  }

  ghost predicate AllGrown(classes: seq<ClassDecl>, depth: seq<nat>, c: nat, h: Heap) {
    forall d: nat | Strict(classes, depth, d, c) :: GrownIn(classes, h, d)
  }

  ghost predicate SomeIllegal(classes: seq<ClassDecl>, depth: seq<nat>, c: nat, h: Heap) {
    exists d: nat :: Strict(classes, depth, d, c) && IllegalIn(classes, h, d)
  }

  /** Only the classes below c, and their method objects, are changed. */
  ghost predicate OnlyBelow(classes: seq<ClassDecl>, depth: seq<nat>, c: nat, h0: Heap, h1: Heap) {
    && |h1.methods| == |h0.methods| && |h1.grown| == |h0.grown|
    && Extends(h0.meths, h1.meths)
    && (forall m | 0 <= m < |h0.meths| && !Strict(classes, depth, h0.meths[m].cls, c) :: h1.meths[m] == h0.meths[m])
    && (forall d | 0 <= d < |h0.methods| && !Strict(classes, depth, d, c) :: h1.methods[d] == h0.methods[d])
    && (forall d | 0 <= d < |h0.grown| && !Strict(classes, depth, d, c) :: h1.grown[d] == h0.grown[d])
  }

  /** d is under one of the first k children of c. */
  ghost predicate BelowFirst(classes: seq<ClassDecl>, depth: seq<nat>, c: nat, k: nat, d: nat) {
    && |depth| == |classes| && d < |classes| && c < |classes| && k <= |classes[c].children|
    && exists j :: 0 <= j < k && Under(classes, depth, d, classes[c].children[j])
  }

  /** The first k children, with all below them, are done. */
  ghost predicate Bequeathed(classes: seq<ClassDecl>, depth: seq<nat>, c: nat, k: nat, h: Heap) {
    && (forall d: nat | Strict(classes, depth, d, c) && BelowFirst(classes, depth, c, k, d) :: GrownIn(classes, h, d))
    && (forall d: nat | Strict(classes, depth, d, c) && !BelowFirst(classes, depth, c, k, d) ::
        Ready(h.meths, classes[d].freshMethods, d))
  }

  lemma DepthBound(classes: seq<ClassDecl>, depth: seq<nat>, deepest: nat, c: nat)
    requires Tree(classes, depth, deepest) && c < |classes|
    ensures |depth| == |classes| && depth[c] <= deepest
  {
  }

  lemma NothingBequeathed(classes: seq<ClassDecl>, depth: seq<nat>, c: nat, h: Heap)
    requires AllReady(classes, depth, c, h) && c < |classes| && |depth| == |classes|
    ensures Bequeathed(classes, depth, c, 0, h) && OnlyBelow(classes, depth, c, h, h)
  {
  }

  lemma AllBequeathed(classes: seq<ClassDecl>, depth: seq<nat>, deepest: nat, c: nat, h: Heap)
    requires Tree(classes, depth, deepest) && c < |classes| && Bequeathed(classes, depth, c, |classes[c].children|, h)
    ensures AllGrown(classes, depth, c, h)
  {
    forall d: nat | Strict(classes, depth, d, c)
      ensures GrownIn(classes, h, d)
    {
      UnderChild(classes, depth, deepest, d, c);
    }
  }

  lemma OnlyBelowTrans(classes: seq<ClassDecl>, depth: seq<nat>, c: nat, h0: Heap, h1: Heap, h2: Heap)
    requires OnlyBelow(classes, depth, c, h0, h1) && OnlyBelow(classes, depth, c, h1, h2)
    ensures OnlyBelow(classes, depth, c, h0, h2)
  {
    hide Strict;
  }

  lemma ChildFacts(classes: seq<ClassDecl>, depth: seq<nat>, deepest: nat, c: nat, k: nat)
    requires Tree(classes, depth, deepest) && c < |classes| && k < |classes[c].children|
    ensures var e := classes[c].children[k];
            e < |classes| && classes[e].parent == Some(c) && |depth| == |classes| && depth[e] == depth[c] + 1 <= deepest
              && e != c
    ensures !classes[c].isFinal
  {
    assert ChildrenOk(classes, depth, c);
    assert depth[classes[c].children[k]] <= deepest;
  }

  /** What lies below a child that is not done yet is ready. */
  lemma ChildReady(classes: seq<ClassDecl>, depth: seq<nat>, deepest: nat, c: nat, k: nat, h: Heap)
    requires Tree(classes, depth, deepest) && c < |classes| && k < |classes[c].children|
    requires Bequeathed(classes, depth, c, k, h)
    ensures var e := classes[c].children[k];
            e < |classes| && forall d: nat | d < |classes| && Under(classes, depth, d, e) ::
              Ready(h.meths, classes[d].freshMethods, d)
  {
    ChildFacts(classes, depth, deepest, c, k);
    var e := classes[c].children[k];
    forall d: nat | d < |classes| && Under(classes, depth, d, e)
      ensures Ready(h.meths, classes[d].freshMethods, d)
    {
      UnderParent(classes, depth, deepest, d, c, k);
      NotYetBelow(classes, depth, deepest, c, k, d);
    }
  }

  /** From h0 to h1 the child's vtable was made, or found illegal. */
  ghost predicate Made(classes: seq<ClassDecl>, c: nat, e: nat, h0: Heap, h1: Heap) {
    && e < |classes| && c < |h0.methods| && e < |h0.methods|
    && Ready(h0.meths, classes[e].freshMethods, e) && Known(h0.meths, h0.methods[c])
    && Extends(h0.meths, h1.meths) && OnlyOverridden(h0.meths, h1.meths, classes[e].freshMethods)
    && h1.grown == h0.grown && |h1.methods| == |h0.methods|
    && forall d | 0 <= d < |h0.methods| && d != e :: h1.methods[d] == h0.methods[d]
  }

  lemma MadeOnlyBelow(classes: seq<ClassDecl>, depth: seq<nat>, deepest: nat, c: nat, k: nat, h0: Heap, h1: Heap)
    requires Tree(classes, depth, deepest) && c < |classes| && k < |classes[c].children|
    requires Made(classes, c, classes[c].children[k], h0, h1)
    ensures OnlyBelow(classes, depth, c, h0, h1)
  {
    ChildFacts(classes, depth, deepest, c, k);
    var e := classes[c].children[k];
    assert Under(classes, depth, c, c) && Strict(classes, depth, e, c);
    hide Under, FreshOk;
    OwnerOf(h0.meths, classes[e].freshMethods, e);
  }

  lemma IllegalChild(classes: seq<ClassDecl>, depth: seq<nat>, deepest: nat, c: nat, k: nat, h0: Heap, h1: Heap)
    requires Tree(classes, depth, deepest) && c < |classes| && k < |classes[c].children|
    requires Made(classes, c, classes[c].children[k], h0, h1)
    requires h1.methods == h0.methods
    requires Known(h0.meths, classes[classes[c].children[k]].freshMethods)
    requires !OverridesLegal(h0.meths, h0.methods[c], classes[classes[c].children[k]].freshMethods)
    ensures OnlyBelow(classes, depth, c, h0, h1) && SomeIllegal(classes, depth, c, h1)
  {
    MadeOnlyBelow(classes, depth, deepest, c, k, h0, h1);
    ChildFacts(classes, depth, deepest, c, k);
    var e := classes[c].children[k];
    assert Under(classes, depth, c, c) && Strict(classes, depth, e, c);
    hide Under, Extends, OverridesLegal, OnlyBelow;
    InheritedSame(h0.meths, h1.meths, h0.methods[c], classes[e].freshMethods);
    assert IllegalIn(classes, h1, e);
  }

  lemma ChildInherits(classes: seq<ClassDecl>, depth: seq<nat>, deepest: nat, c: nat, k: nat, h0: Heap, h1: Heap)
    requires Tree(classes, depth, deepest) && c < |classes| && k < |classes[c].children|
    requires Made(classes, c, classes[c].children[k], h0, h1)
    requires Bequeathed(classes, depth, c, k, h0)
    requires InheritsFrom(h1.meths, classes[classes[c].children[k]], h0.methods[c], h1.methods[classes[c].children[k]])
    ensures OnlyBelow(classes, depth, c, h0, h1)
    ensures Known(h1.meths, h1.methods[classes[c].children[k]]) && AllReady(classes, depth, classes[c].children[k], h1)
  {
    MadeOnlyBelow(classes, depth, deepest, c, k, h0, h1);
    ChildReady(classes, depth, deepest, c, k, h0);
    var e := classes[c].children[k];
    hide OnlyBelow, Bequeathed, Tree, Under, AllStandFor, OverridesLegal;
    forall d: nat | Strict(classes, depth, d, e)
      ensures Ready(h1.meths, classes[d].freshMethods, d)
    {
      assert Ready(h0.meths, classes[d].freshMethods, d);
      StillReady(h0.meths, h1.meths, classes[e].freshMethods, e, classes[d].freshMethods, d);
    }
  }

  lemma StillReady(was: seq<Meth>, meths: seq<Meth>, other: seq<nat>, e: nat, own: seq<nat>, d: nat)
    requires OnlyOverridden(was, meths, other) && FreshOk(was, other, e) && Ready(was, own, d) && d != e
    ensures Ready(meths, own, d)
  {
    OwnerOf(was, other, e);
    OwnerOf(was, own, d);
    assert forall m | m in own :: meths[m] == was[m];
  }

  lemma OwnerOf(meths: seq<Meth>, own: seq<nat>, c: nat)
    requires FreshOk(meths, own, c)
    ensures forall m | m in own :: m < |meths| && meths[m].cls == c
  {
  }

  lemma OnlyBelowChild(classes: seq<ClassDecl>, depth: seq<nat>, deepest: nat, c: nat, k: nat, h1: Heap, h2: Heap)
    requires Tree(classes, depth, deepest) && c < |classes| && k < |classes[c].children|
    requires OnlyBelow(classes, depth, classes[c].children[k], h1, h2)
    ensures OnlyBelow(classes, depth, c, h1, h2)
  {
    ChildFacts(classes, depth, deepest, c, k);
    forall d: nat | Strict(classes, depth, d, classes[c].children[k])
      ensures Strict(classes, depth, d, c)
    {
      UnderParent(classes, depth, deepest, d, c, k);
    }
    hide Strict, Tree;
  }

  lemma BelowChild(classes: seq<ClassDecl>, depth: seq<nat>, deepest: nat, c: nat, k: nat, h0: Heap, h1: Heap, h2: Heap)
    requires Tree(classes, depth, deepest) && c < |classes| && k < |classes[c].children|
    requires OnlyBelow(classes, depth, c, h0, h1) && OnlyBelow(classes, depth, classes[c].children[k], h1, h2)
    ensures OnlyBelow(classes, depth, c, h0, h2)
    ensures SomeIllegal(classes, depth, classes[c].children[k], h2) ==> SomeIllegal(classes, depth, c, h2)
  {
    hide OnlyBelow, IllegalIn, Tree;
    OnlyBelowChild(classes, depth, deepest, c, k, h1, h2);
    OnlyBelowTrans(classes, depth, c, h0, h1, h2);
    ChildFacts(classes, depth, deepest, c, k);
    if SomeIllegal(classes, depth, classes[c].children[k], h2) {
      var d: nat :| Strict(classes, depth, d, classes[c].children[k]) && IllegalIn(classes, h2, d);
      UnderParent(classes, depth, deepest, d, c, k);
      assert Strict(classes, depth, d, c);
    }
  }

  /** The child and all below it have their vtables, and nothing else has changed. */
  lemma ChildBequeathed(classes: seq<ClassDecl>, depth: seq<nat>, deepest: nat, c: nat, k: nat, h0: Heap, h1: Heap,
                        h2: Heap)
    requires Tree(classes, depth, deepest) && c < |classes| && k < |classes[c].children|
    requires Bequeathed(classes, depth, c, k, h0)
    requires Made(classes, c, classes[c].children[k], h0, h1)
    requires OnlyBelow(classes, depth, classes[c].children[k], h1, h2)
    requires InheritsFrom(h1.meths, classes[classes[c].children[k]], h0.methods[c], h1.methods[classes[c].children[k]])
    requires AllGrown(classes, depth, classes[c].children[k], h2) && |h2.grown| == |h2.methods| == |classes|
    ensures var e := classes[c].children[k];
            var h3 := h2.(grown := h2.grown[e := true]);
            OnlyBelow(classes, depth, c, h0, h3) && Known(h3.meths, h3.methods[c])
              && Bequeathed(classes, depth, c, k + 1, h3)
  {
    ChildFacts(classes, depth, deepest, c, k);
    var e := classes[c].children[k];
    var h3 := h2.(grown := h2.grown[e := true]);
    MadeOnlyBelow(classes, depth, deepest, c, k, h0, h1);
    BelowChild(classes, depth, deepest, c, k, h0, h1, h2);
    assert Under(classes, depth, c, c) && Strict(classes, depth, e, c);
    hide InheritsFrom, Under, Ready, Extends;
    assert OnlyBelow(classes, depth, c, h0, h3);
    NotAbove(classes, depth, deepest, c, k);
    KnownStill(h0.meths, h3.meths, h0.methods[c], []);
    forall d: nat | Strict(classes, depth, d, c) && BelowFirst(classes, depth, c, k + 1, d)
      ensures GrownIn(classes, h3, d)
    {
      GrownNow(classes, depth, deepest, c, k, h0, h1, h2, d);
    }
    forall d: nat | Strict(classes, depth, d, c) && !BelowFirst(classes, depth, c, k + 1, d)
      ensures Ready(h3.meths, classes[d].freshMethods, d)
    {
      ReadyYet(classes, depth, deepest, c, k, h0, h1, h2, d);
    }
  }

  /** The parent is not below its child. */
  lemma NotAbove(classes: seq<ClassDecl>, depth: seq<nat>, deepest: nat, c: nat, k: nat)
    requires Tree(classes, depth, deepest) && c < |classes| && k < |classes[c].children|
    ensures !Strict(classes, depth, c, classes[c].children[k])
  {
    ChildFacts(classes, depth, deepest, c, k);
    if Under(classes, depth, c, classes[c].children[k]) {
      UnderDeeper(classes, depth, deepest, c, classes[c].children[k]);
    }
  }

  lemma GrownNow(classes: seq<ClassDecl>, depth: seq<nat>, deepest: nat, c: nat, k: nat, h0: Heap, h1: Heap, h2: Heap,
                 d: nat)
    requires Tree(classes, depth, deepest) && c < |classes| && k < |classes[c].children|
    requires Bequeathed(classes, depth, c, k, h0)
    requires Made(classes, c, classes[c].children[k], h0, h1)
    requires OnlyBelow(classes, depth, classes[c].children[k], h1, h2)
    requires InheritsFrom(h1.meths, classes[classes[c].children[k]], h0.methods[c], h1.methods[classes[c].children[k]])
    requires AllGrown(classes, depth, classes[c].children[k], h2) && |h2.grown| == |h2.methods| == |classes|
    requires Strict(classes, depth, d, c) && BelowFirst(classes, depth, c, k + 1, d)
    ensures GrownIn(classes, h2.(grown := h2.grown[classes[c].children[k] := true]), d)
  {
    hide InheritsFrom, Ready, Extends, OnlyOverridden, Tree;
    ChildFacts(classes, depth, deepest, c, k);
    NotAbove(classes, depth, deepest, c, k);
    var e := classes[c].children[k];
    if d == e {
      ExtendsOf(classes, depth, e, h1, h2);
      InheritsStill(h1.meths, h2.meths, classes[e], h0.methods[c], h1.methods[e]);
    } else if Under(classes, depth, d, e) {
      assert Strict(classes, depth, d, e);
    } else {
      assert BelowFirst(classes, depth, c, k, d);
      assert GrownIn(classes, h0, d);
      ParentNotBelow(classes, depth, deepest, c, k, d);
      ExtendsOf(classes, depth, e, h1, h2);
      ExtendsTrans(h0.meths, h1.meths, h2.meths);
      InheritsStill(h0.meths, h2.meths, classes[d], h0.methods[classes[d].parent.value], h0.methods[d]);
    }
  }

  lemma ExtendsOf(classes: seq<ClassDecl>, depth: seq<nat>, c: nat, h0: Heap, h1: Heap)
    requires OnlyBelow(classes, depth, c, h0, h1)
    ensures Extends(h0.meths, h1.meths)
  {
  }

  lemma ExtendsTrans(a: seq<Meth>, b: seq<Meth>, c: seq<Meth>)
    requires Extends(a, b) && Extends(b, c)
    ensures Extends(a, c)
  {
  }

  /** The parent of a class beside the child's subtree is beside it too. */
  lemma ParentNotBelow(classes: seq<ClassDecl>, depth: seq<nat>, deepest: nat, c: nat, k: nat, d: nat)
    requires Tree(classes, depth, deepest) && c < |classes| && k < |classes[c].children| && d < |classes|
    requires classes[c].children[k] < |classes| && !Under(classes, depth, d, classes[c].children[k])
    requires classes[d].parent.Some?
    ensures classes[d].parent.value < |classes|
    ensures !Strict(classes, depth, classes[d].parent.value, classes[c].children[k])
    ensures classes[d].parent.value != classes[c].children[k]
  {
    assert ParentOk(classes, depth, d);
    var e := classes[c].children[k];
    assert Under(classes, depth, e, e);
  }

  lemma ReadyYet(classes: seq<ClassDecl>, depth: seq<nat>, deepest: nat, c: nat, k: nat, h0: Heap, h1: Heap, h2: Heap,
                 d: nat)
    requires Tree(classes, depth, deepest) && c < |classes| && k < |classes[c].children|
    requires Bequeathed(classes, depth, c, k, h0)
    requires Made(classes, c, classes[c].children[k], h0, h1)
    requires OnlyBelow(classes, depth, classes[c].children[k], h1, h2)
    requires Strict(classes, depth, d, c) && !BelowFirst(classes, depth, c, k + 1, d)
    ensures Ready(h2.meths, classes[d].freshMethods, d)
  {
    ChildFacts(classes, depth, deepest, c, k);
    var e := classes[c].children[k];
    assert !Under(classes, depth, d, e);
    assert !BelowFirst(classes, depth, c, k, d);
    assert Under(classes, depth, e, e);
    StillReady(h0.meths, h1.meths, classes[e].freshMethods, e, classes[d].freshMethods, d);
    hide Under, Tree, Made, Bequeathed;
    forall m | m in classes[d].freshMethods
      ensures m < |h2.meths| && h2.meths[m] == h1.meths[m]
    {
      assert h1.meths[m].cls == d && !Strict(classes, depth, d, e);
    }
  }

  lemma NotYetBelow(classes: seq<ClassDecl>, depth: seq<nat>, deepest: nat, c: nat, k: nat, d: nat)
    requires Tree(classes, depth, deepest) && c < |classes| && k < |classes[c].children| && d < |classes|
    requires classes[c].children[k] < |classes| && Under(classes, depth, d, classes[c].children[k])
    ensures !BelowFirst(classes, depth, c, k, d)
  {
    forall j | 0 <= j < k
      ensures !Under(classes, depth, d, classes[c].children[j])
    {
      ChildFacts(classes, depth, deepest, c, j);
      ChildFacts(classes, depth, deepest, c, k);
      assert ChildrenOk(classes, depth, c);
      if Under(classes, depth, d, classes[c].children[j]) {
        UnderOne(classes, depth, deepest, d, classes[c].children[j], classes[c].children[k]);
      }
    }
  }

  ghost predicate Ready(meths: seq<Meth>, own: seq<nat>, c: nat) {
    FreshOk(meths, own, c) && forall m | m in own :: meths[m].novel
  }

  lemma ReadyParts(meths: seq<Meth>, own: seq<nat>, c: nat)
    requires Ready(meths, own, c)
    ensures FreshOk(meths, own, c) && Known(meths, own) && forall m | m in own :: meths[m].novel
  {
  }

  /** list is the vtable that class k makes of its parent's. */
  ghost predicate InheritsFrom(meths: seq<Meth>, k: ClassDecl, parents: seq<nat>, list: seq<nat>) {
    && Known(meths, parents) && Known(meths, k.freshMethods) && Known(meths, list)
    && AllStandFor(meths, k.isFinal, list, VtableModel(meths, parents, k.freshMethods))
    && OverridesLegal(meths, parents, k.freshMethods)
  }

  lemma KnownStill(was: seq<Meth>, meths: seq<Meth>, parents: seq<nat>, own: seq<nat>)
    requires Extends(was, meths) && Known(was, parents) && Known(was, own)
    ensures Known(meths, parents) && Known(meths, own)
  {
  }

  lemma InheritedSame(was: seq<Meth>, meths: seq<Meth>, parents: seq<nat>, own: seq<nat>)
    requires Extends(was, meths) && Known(was, parents) && Known(was, own)
    ensures Known(meths, parents) && Known(meths, own)
    ensures InheritedAll(meths, parents, own) == InheritedAll(was, parents, own)
    ensures OverridesLegal(meths, parents, own) <==> OverridesLegal(was, parents, own)
  {
    forall i | 0 <= i < |parents|
      ensures Inherited(meths, own, parents[i]) == Inherited(was, own, parents[i])
      ensures FindFunc(meths, own, meths[parents[i]].name) == FindFunc(was, own, was[parents[i]].name)
    {
      FindExtends(was, meths, own, was[parents[i]].name);
    }
    assert InheritedAll(meths, parents, own) == InheritedAll(was, parents, own);
  }

  lemma Appended(was: seq<Meth>, mid: seq<Meth>, meths: seq<Meth>, own: seq<nat>)
    requires Extends(was, mid) && OnlyOverridden(was, mid, own) && |mid| == |was|
    requires |meths| >= |mid| && meths[..|mid|] == mid
    ensures Extends(was, meths) && OnlyOverridden(was, meths, own) && Extends(mid, meths)
  {
    assert forall m | 0 <= m < |mid| :: meths[m] == meths[..|mid|][m];
  }

  lemma FinalInherits(mid: seq<Meth>, meths: seq<Meth>, k: ClassDecl, parents: seq<nat>, list: seq<nat>)
    requires k.isFinal && Extends(mid, meths) && Known(mid, parents) && Known(mid, k.freshMethods)
    requires AllStandFor(meths, true, list, VtableModel(mid, parents, k.freshMethods))
    requires OverridesLegal(mid, parents, k.freshMethods)
    ensures InheritsFrom(meths, k, parents, list)
  {
    hide Extends;
    ModelExtends(mid, meths, parents, k.freshMethods);
    InheritedSame(mid, meths, parents, k.freshMethods);
  }

  lemma PlainInherits(meths: seq<Meth>, k: ClassDecl, parents: seq<nat>, list: seq<nat>)
    requires !k.isFinal && Known(meths, parents) && Known(meths, k.freshMethods)
    requires list == VtableModel(meths, parents, k.freshMethods) && OverridesLegal(meths, parents, k.freshMethods)
    ensures InheritsFrom(meths, k, parents, list)
  {
    NovelKnown(meths, parents, k.freshMethods);
  }

  /** It stays so while methods are added or lose their novelty. */
  lemma InheritsStill(was: seq<Meth>, meths: seq<Meth>, k: ClassDecl, parents: seq<nat>, list: seq<nat>)
    requires Extends(was, meths) && InheritsFrom(was, k, parents, list)
    ensures InheritsFrom(meths, k, parents, list)
  {
    ModelExtends(was, meths, parents, k.freshMethods);
    InheritedSame(was, meths, parents, k.freshMethods);
    hide VtableModel, OverridesLegal;
  }

  /** The first i slots of the parent are gathered. */
  ghost predicate Gathered(was: seq<Meth>, meths: seq<Meth>, parents: seq<nat>, own: seq<nat>, i: nat, list: seq<nat>) {
    && Known(was, parents) && Known(was, own) && i <= |parents|
    && Extends(was, meths) && OnlyOverridden(was, meths, own) && |meths| == |was|
    && NovelSoFar(meths, parents, own, i)
    && list == InheritedAll(was, parents[..i], own)
    && OverridesLegal(was, parents[..i], own)
  }

  lemma NothingGathered(meths: seq<Meth>, parents: seq<nat>, own: seq<nat>, c: nat)
    requires Known(meths, parents) && FreshOk(meths, own, c) && forall m | m in own :: meths[m].novel
    ensures Gathered(meths, meths, parents, own, 0, [])
  {
  }

  lemma GatheredKnown(was: seq<Meth>, meths: seq<Meth>, parents: seq<nat>, own: seq<nat>, i: nat, list: seq<nat>)
    requires Gathered(was, meths, parents, own, i, list)
    ensures Known(meths, own) && Known(meths, parents) && forall k | 0 <= k < |parents| :: parents[k] < |meths|
    ensures Extends(was, meths) && OnlyOverridden(was, meths, own) && |meths| == |was|
  {
  }

  /** The next slot is kept. */
  lemma GatherKept(was: seq<Meth>, meths: seq<Meth>, parents: seq<nat>, own: seq<nat>, i: nat, list: seq<nat>)
    requires Gathered(was, meths, parents, own, i, list) && i < |parents| && Known(meths, own) && parents[i] < |meths|
    requires FindFunc(meths, own, meths[parents[i]].name).None?
    ensures Gathered(was, meths, parents, own, i + 1, list + [parents[i]])
  {
    hide InheritedAll, NovelSoFar, OnlyOverridden;
    FindExtends(was, meths, own, meths[parents[i]].name);
    InheritedSnoc(was, parents, own, i);
    KeptStep(meths, parents, own, i);
    LegalSnoc(was, parents, own, i);
  }

  lemma LegalBefore(was: seq<Meth>, meths: seq<Meth>, own: seq<nat>, p: nat, m: nat)
    requires Extends(was, meths) && Known(was, own) && Known(meths, own) && p < |was| <= |meths| && m < |meths|
    requires FindFunc(meths, own, meths[p].name) == Some(m) && Overridable(meths[m], meths[p])
    ensures LegalAt(was, own, p)
  {
    FindExtends(was, meths, own, was[p].name);
  }

  lemma OverriddenMore(was: seq<Meth>, meths: seq<Meth>, own: seq<nat>, m: nat)
    requires Extends(was, meths) && OnlyOverridden(was, meths, own) && |meths| == |was| && m < |meths| && m in own
    ensures var meths' := meths[m := meths[m].(novel := false)];
            Extends(was, meths') && OnlyOverridden(was, meths', own)
  {
  }

  /** The next slot is overridden. */
  lemma GatherOverridden(was: seq<Meth>, meths: seq<Meth>, parents: seq<nat>, own: seq<nat>, c: nat, i: nat,
                         list: seq<nat>, m: nat)
    requires FreshOk(was, own, c) && Gathered(was, meths, parents, own, i, list) && i < |parents|
    requires Known(meths, own) && parents[i] < |meths|
    requires FindFunc(meths, own, meths[parents[i]].name) == Some(m) && m < |meths|
    requires Overridable(meths[m], meths[parents[i]])
    ensures Gathered(was, meths[m := meths[m].(novel := false)], parents, own, i + 1, list + [m])
  {
    hide InheritedAll, NovelSoFar, OverridesLegal, LegalAt, SameSignature, OnlyOverridden;
    var meths' := meths[m := meths[m].(novel := false)];
    FindExtends(was, meths, own, meths[parents[i]].name);
    InheritedSnoc(was, parents, own, i);
    SameNames(was, meths, own, c);
    LegalBefore(was, meths, own, parents[i], m);
    OverriddenMore(was, meths, own, m);
    OverriddenStep(meths, meths', parents, own, i, m);
    LegalSnoc(was, parents, own, i);
  }

  lemma SameNames(was: seq<Meth>, meths: seq<Meth>, own: seq<nat>, c: nat)
    requires FreshOk(was, own, c) && Extends(was, meths)
    ensures Known(meths, own) && forall j, k | 0 <= j < k < |own| :: meths[own[j]].name != meths[own[k]].name
  {
  }

  /** The next slot may not be overridden. */
  lemma GatherIllegal(was: seq<Meth>, meths: seq<Meth>, parents: seq<nat>, own: seq<nat>, i: nat, list: seq<nat>)
    requires Gathered(was, meths, parents, own, i, list) && i < |parents| && Known(meths, own) && parents[i] < |meths|
    requires var child := FindFunc(meths, own, meths[parents[i]].name);
             child.Some? && !Overridable(meths[child.value], meths[parents[i]])
    ensures Known(was, parents) && Known(was, own) && !OverridesLegal(was, parents, own)
  {
    hide InheritedAll, NovelSoFar, OnlyOverridden;
    FindExtends(was, meths, own, meths[parents[i]].name);
  }

  lemma LegalSnoc(was: seq<Meth>, parents: seq<nat>, own: seq<nat>, i: nat)
    requires Known(was, parents) && Known(was, own) && i < |parents| && OverridesLegal(was, parents[..i], own)
    requires LegalAt(was, own, parents[i])
    ensures OverridesLegal(was, parents[..i + 1], own)
  {
  }

  lemma InheritedSnoc(was: seq<Meth>, parents: seq<nat>, own: seq<nat>, i: nat)
    requires Known(was, parents) && Known(was, own) && i < |parents|
    ensures Known(was, parents[..i + 1]) && Known(was, parents[..i])
    ensures InheritedAll(was, parents[..i + 1], own)
            == InheritedAll(was, parents[..i], own) + [Inherited(was, own, parents[i])]
  {
    assert parents[..i + 1][..i] == parents[..i];
  }

  lemma KeptStep(meths: seq<Meth>, parents: seq<nat>, own: seq<nat>, i: nat)
    requires Known(meths, parents) && Known(meths, own) && i < |parents| && NovelSoFar(meths, parents, own, i)
    requires FindFunc(meths, own, meths[parents[i]].name).None?
    ensures NovelSoFar(meths, parents, own, i + 1)
  {
  }

  lemma GatheredAll(was: seq<Meth>, meths: seq<Meth>, parents: seq<nat>, own: seq<nat>, list: seq<nat>)
    requires Gathered(was, meths, parents, own, |parents|, list)
    ensures Known(meths, parents) && Known(meths, own) && NovelSoFar(meths, parents, own, |parents|)
    ensures Known(was, parents) && Known(was, own) && OverridesLegal(was, parents, own)
    ensures list == InheritedAll(was, parents, own)
    ensures Extends(was, meths) && OnlyOverridden(was, meths, own) && |meths| == |was|
  {
    assert parents[..|parents|] == parents;
  }

  lemma OverriddenStep(was: seq<Meth>, meths: seq<Meth>, parents: seq<nat>, own: seq<nat>, i: nat, m: nat)
    requires Known(was, own) && (forall j, k | 0 <= j < k < |own| :: was[own[j]].name != was[own[k]].name)
    requires Known(was, parents) && i < |parents| && NovelSoFar(was, parents, own, i)
    requires m in own && was[m].name == was[parents[i]].name && meths == was[m := was[m].(novel := false)]
    ensures Known(meths, parents) && Known(meths, own) && NovelSoFar(meths, parents, own, i + 1)
  {
  }

  lemma NovelIff(meths: seq<Meth>, parents: seq<nat>, own: seq<nat>, m: nat)
    requires Known(meths, own) && Known(meths, parents) && NovelSoFar(meths, parents, own, |parents|) && m in own
    ensures meths[m].novel <==> FindFunc(meths, parents, meths[m].name).None?
  {
  }

  // ---------------------------------------------------------------- member variables

  ghost predicate VarsGrown(classes: seq<ClassDecl>, vars: seq<seq<nat>>, d: nat) {
    && d < |classes| == |vars| && classes[d].parent.Some? && classes[d].parent.value < |vars|
    && vars[d] == vars[classes[d].parent.value] + classes[d].freshVars
  }

  ghost predicate VarsOk(classes: seq<ClassDecl>, vars: seq<seq<nat>>, d: nat) {
    && d < |classes| == |vars|
    && if classes[d].parent.Some? then VarsGrown(classes, vars, d) else vars[d] == classes[d].freshVars
  }

  ghost predicate VarsBelow(classes: seq<ClassDecl>, depth: seq<nat>, c: nat, v0: seq<seq<nat>>, v1: seq<seq<nat>>) {
    |v1| == |v0| && forall d | 0 <= d < |v0| && !Strict(classes, depth, d, c) :: v1[d] == v0[d]
  }

  ghost predicate VarsFirst(classes: seq<ClassDecl>, depth: seq<nat>, c: nat, k: nat, vars: seq<seq<nat>>) {
    forall d: nat | Strict(classes, depth, d, c) && BelowFirst(classes, depth, c, k, d) :: VarsGrown(classes, vars, d)
  }

  lemma NoVarsYet(classes: seq<ClassDecl>, depth: seq<nat>, c: nat, vars: seq<seq<nat>>)
    ensures VarsBelow(classes, depth, c, vars, vars) && VarsFirst(classes, depth, c, 0, vars)
  {
  }

  lemma AllVars(classes: seq<ClassDecl>, depth: seq<nat>, deepest: nat, c: nat, vars: seq<seq<nat>>)
    requires Tree(classes, depth, deepest) && c < |classes| && VarsFirst(classes, depth, c, |classes[c].children|, vars)
    ensures forall d: nat | Strict(classes, depth, d, c) :: VarsGrown(classes, vars, d)
  {
    forall d: nat | Strict(classes, depth, d, c)
      ensures VarsGrown(classes, vars, d)
    {
      UnderChild(classes, depth, deepest, d, c);
    }
  }

  lemma VarsOfChild(classes: seq<ClassDecl>, depth: seq<nat>, deepest: nat, c: nat, k: nat,
                    was: seq<seq<nat>>, v0: seq<seq<nat>>, v1: seq<seq<nat>>, v2: seq<seq<nat>>)
    requires Tree(classes, depth, deepest) && c < |classes| == |v0| && k < |classes[c].children|
    requires classes[c].children[k] < |v0|
    requires VarsBelow(classes, depth, c, was, v0) && VarsFirst(classes, depth, c, k, v0)
    requires v1 == v0[classes[c].children[k] := v0[c] + classes[classes[c].children[k]].freshVars]
    requires VarsBelow(classes, depth, classes[c].children[k], v1, v2)
    requires forall d: nat | Strict(classes, depth, d, classes[c].children[k]) :: VarsGrown(classes, v2, d)
    ensures VarsBelow(classes, depth, c, was, v2) && VarsFirst(classes, depth, c, k + 1, v2)
  {
    ChildFacts(classes, depth, deepest, c, k);
    NotAbove(classes, depth, deepest, c, k);
    var e := classes[c].children[k];
    assert Under(classes, depth, c, c) && Strict(classes, depth, e, c);
    forall d: nat | Strict(classes, depth, d, e)
      ensures Strict(classes, depth, d, c)
    {
      UnderParent(classes, depth, deepest, d, c, k);
    }
    forall d: nat | Strict(classes, depth, d, c) && BelowFirst(classes, depth, c, k + 1, d)
      ensures VarsGrown(classes, v2, d)
    {
      if d != e && !Under(classes, depth, d, e) {
        assert BelowFirst(classes, depth, c, k, d);
        assert VarsGrown(classes, v0, d);
        ParentNotBelow(classes, depth, deepest, c, k, d);
      }
    }
  }

  /** The grown tree. */
  ghost predicate Whole(classes: seq<ClassDecl>, depth: seq<nat>, deepest: nat, root: nat, h: Heap,
                        vars: seq<seq<nat>>) {
    && Tree(classes, depth, deepest) && root < |classes| && classes[root].parent.None?
    && |h.methods| == |h.grown| == |vars| == |classes|
    && h.methods[root] == classes[root].freshMethods && AllGrown(classes, depth, root, h)
    && vars[root] == classes[root].freshVars
      && (forall d: nat | Strict(classes, depth, d, root) :: VarsGrown(classes, vars, d))
    && (forall d: nat | d < |classes| && Under(classes, depth, d, root) :: FreshOk(h.meths, classes[d].freshMethods, d))
  }

  lemma GrownRoot(classes: seq<ClassDecl>, depth: seq<nat>, root: nat, h: Heap)
    requires AllGrown(classes, depth, root, h) && root < |h.grown|
    ensures AllGrown(classes, depth, root, h.(grown := h.grown[root := true]))
  {
    hide Under, InheritsFrom;
    forall d: nat | Strict(classes, depth, d, root)
      ensures GrownIn(classes, h.(grown := h.grown[root := true]), d)
    {
      assert GrownIn(classes, h, d);
    }
  }

  lemma RootKept(classes: seq<ClassDecl>, depth: seq<nat>, root: nat, h0: Heap, h1: Heap)
    requires |depth| == |classes| == |h0.methods| && root < |classes| && OnlyBelow(classes, depth, root, h0, h1)
    requires forall d: nat | d < |classes| && Under(classes, depth, d, root) ::
             Ready(h0.meths, classes[d].freshMethods, d)
    ensures |h1.methods| == |h0.methods| && h1.methods[root] == h0.methods[root]
    ensures forall d: nat | d < |classes| && Under(classes, depth, d, root) ::
            FreshOk(h1.meths, classes[d].freshMethods, d)
  {
    forall d: nat | d < |classes| && Under(classes, depth, d, root)
      ensures FreshOk(h1.meths, classes[d].freshMethods, d)
    {
      ReadyParts(h0.meths, classes[d].freshMethods, d);
    }
  }

  // ---------------------------------------------------------------- the variables of a parcel

  /** The variables that class c and its nearest ancestors in the same parcel declare, oldest first. */
  ghost function ParcelVars(classes: seq<ClassDecl>, depth: seq<nat>, c: nat, parcel: nat): seq<nat>
    requires |depth| == |classes| && c < |classes|
    decreases depth[c]
  {
    Above(classes, depth, c, parcel) + classes[c].freshVars
  }

  ghost function Above(classes: seq<ClassDecl>, depth: seq<nat>, c: nat, parcel: nat): seq<nat>
    requires |depth| == |classes| && c < |classes|
    decreases depth[c], 0
  {
    match classes[c].parent
    case None => []
    case Some(p) =>
      if p < |classes| && depth[p] < depth[c] && classes[p].parcel == parcel then ParcelVars(classes, depth, p, parcel)
        else []
  }

  /** The variables inherited by class c. */
  ghost function Before(classes: seq<ClassDecl>, vars: seq<seq<nat>>, c: nat): seq<nat>
    requires c < |classes|
  {
    if classes[c].parent.Some? && classes[c].parent.value < |vars| then vars[classes[c].parent.value] else []
  }

  /** From class c the search has come to `last`; `own` are the variables passed on the way. */
  ghost predicate Climbed(classes: seq<ClassDecl>, depth: seq<nat>, vars: seq<seq<nat>>, c: nat, last: nat,
                          own: seq<nat>) {
    && |depth| == |classes| == |vars| && c < |classes| && last < |classes| && Under(classes, depth, c, last)
    && ParcelVars(classes, depth, c, classes[c].parcel) == Above(classes, depth, last, classes[c].parcel) + own
    && vars[c] == Before(classes, vars, last) + own
  }

  lemma ClimbStart(classes: seq<ClassDecl>, depth: seq<nat>, deepest: nat, vars: seq<seq<nat>>, c: nat)
    requires Tree(classes, depth, deepest) && c < |classes| == |vars|
    requires forall d: nat | d < |classes| && Under(classes, depth, c, d) :: VarsOk(classes, vars, d)
    ensures Climbed(classes, depth, vars, c, c, classes[c].freshVars)
    ensures classes[c].parent.Some? ==> classes[c].parent.value < |classes|
  {
    UnderSelf(classes, depth, c);
    ParcelStart(classes, depth, deepest, vars, c);
  }

  lemma ClimbStep(classes: seq<ClassDecl>, depth: seq<nat>, deepest: nat, vars: seq<seq<nat>>, c: nat, last: nat,
                  own: seq<nat>)
    requires Tree(classes, depth, deepest) && Climbed(classes, depth, vars, c, last, own)
    requires forall d: nat | d < |classes| && Under(classes, depth, c, d) :: VarsOk(classes, vars, d)
    requires classes[last].parent.Some? && classes[last].parent.value < |classes|
    requires classes[classes[last].parent.value].parcel == classes[c].parcel
    ensures var p := classes[last].parent.value;
            && Climbed(classes, depth, vars, c, p, classes[p].freshVars + own) && depth[p] < depth[last]
            && (classes[p].parent.Some? ==> classes[p].parent.value < |classes|)
  {
    hide Tree, VarsOk, Under, ParcelVars, Above, Before;
    ParcelStep(classes, depth, deepest, vars, c, last);
    var p, parcel := classes[last].parent.value, classes[c].parcel;
    assert Above(classes, depth, p, parcel) + classes[p].freshVars + own
           == Above(classes, depth, p, parcel) + (classes[p].freshVars + own);
    assert Before(classes, vars, p) + classes[p].freshVars + own
           == Before(classes, vars, p) + (classes[p].freshVars + own);
  }

  lemma ClimbEnd(classes: seq<ClassDecl>, depth: seq<nat>, deepest: nat, vars: seq<seq<nat>>, c: nat, last: nat,
                 own: seq<nat>)
    requires Tree(classes, depth, deepest) && Climbed(classes, depth, vars, c, last, own)
    requires forall d: nat | d < |classes| && Under(classes, depth, c, d) :: VarsOk(classes, vars, d)
    requires !(classes[last].parent.Some? && classes[last].parent.value < |classes|
               && classes[classes[last].parent.value].parcel == classes[c].parcel)
    ensures classes[last].parent.Some? ==> classes[last].parent.value < |vars|
    ensures var n := if classes[last].parent.Some? then |vars[classes[last].parent.value]| else 0;
            n <= |vars[c]| && vars[c][n..] == ParcelVars(classes, depth, c, classes[c].parcel)
  {
    hide Tree, VarsOk, Under, ParcelVars, Above;
    ParcelEnd(classes, depth, deepest, vars, c, last);
    assert [] + own == own;
  }

  lemma UnderSelf(classes: seq<ClassDecl>, depth: seq<nat>, c: nat)
    requires |depth| == |classes| && c < |classes|
    ensures Under(classes, depth, c, c)
  {
  }

  lemma ParcelStart(classes: seq<ClassDecl>, depth: seq<nat>, deepest: nat, vars: seq<seq<nat>>, c: nat)
    requires Tree(classes, depth, deepest) && c < |classes| && VarsOk(classes, vars, c)
    ensures classes[c].parent.Some? ==> classes[c].parent.value < |classes|
    ensures vars[c] == Before(classes, vars, c) + classes[c].freshVars
  {
    assert ParentOk(classes, depth, c);
  }

  lemma ParcelStep(classes: seq<ClassDecl>, depth: seq<nat>, deepest: nat, vars: seq<seq<nat>>, c: nat, last: nat)
    requires Tree(classes, depth, deepest) && c < |classes| && last < |classes| && Under(classes, depth, c, last)
    requires forall d: nat | d < |classes| && Under(classes, depth, c, d) :: VarsOk(classes, vars, d)
    requires classes[last].parent.Some? && classes[last].parent.value < |classes|
    requires classes[classes[last].parent.value].parcel == classes[c].parcel
    ensures var p := classes[last].parent.value;
            && Under(classes, depth, c, p) && depth[p] < depth[last]
            && Above(classes, depth, last, classes[c].parcel)
              == Above(classes, depth, p, classes[c].parcel) + classes[p].freshVars
            && Before(classes, vars, last) == Before(classes, vars, p) + classes[p].freshVars
            && (classes[p].parent.Some? ==> classes[p].parent.value < |classes|)
  {
    var p := classes[last].parent.value;
    assert ParentOk(classes, depth, last) && ParentOk(classes, depth, p);
    UnderUp(classes, depth, deepest, c, last);
    assert VarsOk(classes, vars, p);
  }

  lemma {:induction false} UnderUp(classes: seq<ClassDecl>, depth: seq<nat>, deepest: nat, c: nat, last: nat)
    requires Tree(classes, depth, deepest) && c < |classes| && last < |classes| && Under(classes, depth, c, last)
    requires classes[last].parent.Some? && classes[last].parent.value < |classes|
    ensures Under(classes, depth, c, classes[last].parent.value)
    decreases depth[c]
  {
    assert ParentOk(classes, depth, c);
    var p := classes[last].parent.value;
    if c == last {
      assert Under(classes, depth, p, p);
    } else {
      UnderUp(classes, depth, deepest, classes[c].parent.value, last);
    }
  }

  lemma ParcelEnd(classes: seq<ClassDecl>, depth: seq<nat>, deepest: nat, vars: seq<seq<nat>>, c: nat, last: nat)
    requires Tree(classes, depth, deepest) && c < |classes| && last < |classes| && Under(classes, depth, c, last)
    requires forall d: nat | d < |classes| && Under(classes, depth, c, d) :: VarsOk(classes, vars, d)
    requires !(classes[last].parent.Some? && classes[last].parent.value < |classes|
               && classes[classes[last].parent.value].parcel == classes[c].parcel)
    ensures Above(classes, depth, last, classes[c].parcel) == []
    ensures classes[last].parent.Some? ==> classes[last].parent.value < |vars|
  {
    assert VarsOk(classes, vars, last);
  }

  // ---------------------------------------------------------------- the vtable agrees with inheritance

  /** The definition of a method in the nearest class, going up from c, that declares it. */
  ghost function Resolve(classes: seq<ClassDecl>, depth: seq<nat>, meths: seq<Meth>, c: nat, name: string): Option<nat>
    requires |depth| == |classes| && c < |classes|
    decreases depth[c]
  {
    var own := if Known(meths, classes[c].freshMethods) then FindFunc(meths, classes[c].freshMethods, name) else None;
    if own.Some? then own
    else match classes[c].parent
      case None => None
      case Some(p) => if p < |classes| && depth[p] < depth[c] then Resolve(classes, depth, meths, p, name) else None
  }

  lemma {:induction false} FindConcat(meths: seq<Meth>, a: seq<nat>, b: seq<nat>, name: string)
    requires Known(meths, a) && Known(meths, b)
    ensures Known(meths, a + b)
    ensures FindFunc(meths, a + b, name) == if FindFunc(meths, a, name).Some? then FindFunc(meths, a, name)
            else FindFunc(meths, b, name)
  {
    if a == [] {
      assert a + b == b;
    } else {
      FindConcat(meths, a[1..], b, name);
      assert (a + b)[1..] == a[1..] + b;
    }
  }

  /** Lists with the same names in the same places have their finds in the same places. */
  lemma {:induction false} FindAlike(meths: seq<Meth>, a: seq<nat>, b: seq<nat>, name: string) returns (i: nat)
    requires Known(meths, a) && Known(meths, b) && |a| == |b| && forall k | 0 <= k < |a| ::
             meths[a[k]].name == meths[b[k]].name
    ensures FindFunc(meths, a, name).None? <==> FindFunc(meths, b, name).None?
    ensures FindFunc(meths, a, name).Some? ==>
              i < |a| && FindFunc(meths, a, name) == Some(a[i]) && FindFunc(meths, b, name) == Some(b[i])
  {
    i := 0;
    if a != [] && meths[a[0]].name != name {
      var j := FindAlike(meths, a[1..], b[1..], name);
      i := j + 1;
    }
  }

  lemma FindNovel(meths: seq<Meth>, parents: seq<nat>, own: seq<nat>, c: nat, name: string)
    requires Known(meths, parents) && FreshOk(meths, own, c)
    ensures Known(meths, NovelOf(meths, parents, own))
    ensures FindFunc(meths, NovelOf(meths, parents, own), name) ==
            if FindFunc(meths, parents, name).None? then FindFunc(meths, own, name) else None
  {
    NovelKnown(meths, parents, own);
    var novel := NovelOf(meths, parents, own);
    var found, all := FindFunc(meths, novel, name), FindFunc(meths, own, name);
    if found.Some? && all.Some? {
      SameMethod(meths, own, c, found.value, all.value);
    }
    if FindFunc(meths, parents, name).None? && all.Some? {
      assert all.value in novel;
    }
  }

  lemma SameMethod(meths: seq<Meth>, own: seq<nat>, c: nat, m: nat, m': nat)
    requires FreshOk(meths, own, c) && m in own && m' in own && meths[m].name == meths[m'].name
    ensures m == m'
  {
    var i :| 0 <= i < |own| && own[i] == m;
    var j :| 0 <= j < |own| && own[j] == m';
    assert i == j || i < j || j < i;
  }

  /** What the model of a vtable holds under a name: one's own method, else the parent's. */
  lemma FindModel(meths: seq<Meth>, parents: seq<nat>, own: seq<nat>, c: nat, name: string)
    requires Known(meths, parents) && FreshOk(meths, own, c)
    ensures Known(meths, VtableModel(meths, parents, own))
    ensures FindFunc(meths, VtableModel(meths, parents, own), name) ==
            if FindFunc(meths, own, name).Some? then FindFunc(meths, own, name) else FindFunc(meths, parents, name)
  {
    var all := InheritedAll(meths, parents, own);
    FindNovel(meths, parents, own, c, name);
    FindConcat(meths, all, NovelOf(meths, parents, own), name);
    forall k | 0 <= k < |parents|
      ensures meths[all[k]].name == meths[parents[k]].name
    {
      assert all[k] == Inherited(meths, own, parents[k]);
    }
    var i := FindAlike(meths, all, parents, name);
    if FindFunc(meths, parents, name).Some? {
      assert all[i] == Inherited(meths, own, parents[i]);
    }
  }

  /** A class that is not final finds under every name exactly the nearest definition. */
  lemma {:induction false} DispatchIsResolve(classes: seq<ClassDecl>, depth: seq<nat>, deepest: nat, root: nat, h: Heap,
                                             vars: seq<seq<nat>>,
                                             c: nat, name: string)
    requires Whole(classes, depth, deepest, root, h, vars) && c < |classes| && Under(classes, depth, c, root)
    requires !classes[c].isFinal
    ensures Known(h.meths, h.methods[c])
    ensures FindFunc(h.meths, h.methods[c], name) == Resolve(classes, depth, h.meths, c, name)
    decreases depth[c]
  {
    assert FreshOk(h.meths, classes[c].freshMethods, c);
    if c != root {
      var p := classes[c].parent.value;
      ParentFacts(classes, depth, deepest, root, h, vars, c);
      DispatchIsResolve(classes, depth, deepest, root, h, vars, p, name);
      FindModel(h.meths, h.methods[p], classes[c].freshMethods, c, name);
      assert h.methods[c] == VtableModel(h.meths, h.methods[p], classes[c].freshMethods);
    }
  }

  lemma ParentFacts(classes: seq<ClassDecl>, depth: seq<nat>, deepest: nat, root: nat, h: Heap, vars: seq<seq<nat>>,
                    c: nat)
    requires Whole(classes, depth, deepest, root, h, vars) && c < |classes| && Under(classes, depth, c, root)
    requires c != root
    ensures classes[c].parent.Some?
    ensures var p := classes[c].parent.value;
            && p < |classes| && depth[p] < depth[c] && Under(classes, depth, p, root) && !classes[p].isFinal
            && InheritsFrom(h.meths, classes[c], h.methods[p], h.methods[c])
              && FreshOk(h.meths, classes[c].freshMethods, c)
            && vars[c] == vars[p] + classes[c].freshVars
  {
    assert Strict(classes, depth, c, root);
    assert GrownIn(classes, h, c) && VarsGrown(classes, vars, c) && ParentOk(classes, depth, c);
    assert ChildrenOk(classes, depth, classes[c].parent.value);
  }

  /** A final class finds the nearest definition if that is final, else the final copy made of it. */
  lemma FinalDispatch(classes: seq<ClassDecl>, depth: seq<nat>, deepest: nat, root: nat, h: Heap, vars: seq<seq<nat>>,
                      c: nat, name: string)
    requires Whole(classes, depth, deepest, root, h, vars) && c < |classes| && Strict(classes, depth, c, root)
    requires classes[c].isFinal
    ensures Known(h.meths, h.methods[c])
    ensures var found, def := FindFunc(h.meths, h.methods[c], name), Resolve(classes, depth, h.meths, c, name);
            if def.None? then found.None? else found.Some? && StandsFor(h.meths, true, found.value, def.value)
  {
    ParentFacts(classes, depth, deepest, root, h, vars, c);
    var p, own := classes[c].parent.value, classes[c].freshMethods;
    DispatchIsResolve(classes, depth, deepest, root, h, vars, p, name);
    FindModel(h.meths, h.methods[p], own, c, name);
    hide Whole, Under;
    var model := VtableModel(h.meths, h.methods[p], own);
    forall k | 0 <= k < |model|
      ensures h.meths[h.methods[c][k]].name == h.meths[model[k]].name
    {
      assert StandsFor(h.meths, true, h.methods[c][k], model[k]);
    }
    var i := FindAlike(h.meths, h.methods[c], model, name);
    if FindFunc(h.meths, model, name).Some? {
      assert StandsFor(h.meths, true, h.methods[c][i], model[i]);
    }
  }

  /** Slot i of a child has a method with the name and signature of that in slot i of its parent, and the
      parent's variables come first. */
  lemma SlotsMatch(classes: seq<ClassDecl>, depth: seq<nat>, deepest: nat, root: nat, h: Heap, vars: seq<seq<nat>>,
                   c: nat)
    requires Whole(classes, depth, deepest, root, h, vars) && c < |classes| && Under(classes, depth, c, root)
    requires c != root
    ensures classes[c].parent.Some? && classes[c].parent.value < |classes|
    ensures var p := classes[c].parent.value;
            && Known(h.meths, h.methods[p]) && Known(h.meths, h.methods[c])
            && |h.methods[p]| <= |h.methods[c]|
            && (forall i | 0 <= i < |h.methods[p]| :: SameSignature(h.meths[h.methods[c][i]], h.meths[h.methods[p][i]]))
            && vars[p] <= vars[c]
  {
    ParentFacts(classes, depth, deepest, root, h, vars, c);
    var p, own := classes[c].parent.value, classes[c].freshMethods;
    hide Whole, Under, Tree, SameSignature, OverridesLegal, AllStandFor;
    NovelKnown(h.meths, h.methods[p], own);
    forall i | 0 <= i < |h.methods[p]|
      ensures SameSignature(h.meths[h.methods[c][i]], h.meths[h.methods[p][i]])
    {
      SlotMatches(h.meths, classes[c].isFinal, h.methods[p], own, h.methods[c], i);
    }
  }

  lemma SlotMatches(meths: seq<Meth>, isFinal: bool, parents: seq<nat>, own: seq<nat>, list: seq<nat>, i: nat)
    requires Known(meths, parents) && Known(meths, own) && i < |parents| && OverridesLegal(meths, parents, own)
    requires AllStandFor(meths, isFinal, list, VtableModel(meths, parents, own)) && i < |list|
    ensures list[i] < |meths| && SameSignature(meths[list[i]], meths[parents[i]])
  {
    var model := VtableModel(meths, parents, own);
    assert model[i] == InheritedAll(meths, parents, own)[i] == Inherited(meths, own, parents[i]);
    assert StandsFor(meths, isFinal, list[i], model[i]);
    assert LegalAt(meths, own, parents[i]);
  }

  /** No two slots have the same name. */
  ghost predicate DistinctNames(meths: seq<Meth>, list: seq<nat>) {
    Known(meths, list) && forall i, j | 0 <= i < j < |list| :: meths[list[i]].name != meths[list[j]].name
  }

  lemma {:induction false} NovelDistinct(meths: seq<Meth>, parents: seq<nat>, own: seq<nat>)
    requires Known(meths, parents) && DistinctNames(meths, own)
    ensures DistinctNames(meths, NovelOf(meths, parents, own))
  {
    hide FindFunc;
    if own != [] {
      var n := |own| - 1;
      NovelDistinct(meths, parents, own[..n]);
      NovelKnown(meths, parents, own[..n]);
      var before := NovelOf(meths, parents, own[..n]);
      forall i | 0 <= i < |before|
        ensures meths[before[i]].name != meths[own[n]].name
      {
        assert before[i] in before;
        var k :| 0 <= k < n && own[..n][k] == before[i];
        assert own[k] == before[i];
      }
    }
  }

  lemma ModelDistinct(meths: seq<Meth>, parents: seq<nat>, own: seq<nat>)
    requires DistinctNames(meths, parents) && DistinctNames(meths, own)
    ensures DistinctNames(meths, VtableModel(meths, parents, own))
  {
    hide FindFunc;
    var all, novel := InheritedAll(meths, parents, own), NovelOf(meths, parents, own);
    NovelDistinct(meths, parents, own);
    NovelKnown(meths, parents, own);
    forall i | 0 <= i < |all|
      ensures meths[all[i]].name == meths[parents[i]].name
    {
      assert all[i] == Inherited(meths, own, parents[i]);
      InheritedName(meths, own, parents[i]);
    }
    forall i, j | 0 <= i < |all| && 0 <= j < |novel|
      ensures meths[all[i]].name != meths[novel[j]].name
    {
      assert novel[j] in novel;
      assert FindFunc(meths, parents, meths[novel[j]].name).None?;
      NotFound(meths, parents, meths[novel[j]].name, i);
    }
  }

  lemma InheritedName(meths: seq<Meth>, own: seq<nat>, m: nat)
    requires Known(meths, own) && m < |meths|
    ensures Inherited(meths, own, m) < |meths| && meths[Inherited(meths, own, m)].name == meths[m].name
  {
  }

  lemma NotFound(meths: seq<Meth>, list: seq<nat>, name: string, i: nat)
    requires Known(meths, list) && FindFunc(meths, list, name).None? && i < |list|
    ensures meths[list[i]].name != name
  {
  }

  /** In a grown tree no class has two slots with the same name. */
  lemma {:induction false} OneSlotPerName(classes: seq<ClassDecl>, depth: seq<nat>, deepest: nat, root: nat, h: Heap,
                                          vars: seq<seq<nat>>, c: nat)
    requires Whole(classes, depth, deepest, root, h, vars) && c < |classes| && Under(classes, depth, c, root)
    ensures c < |h.methods| && DistinctNames(h.meths, h.methods[c])
    decreases depth[c]
  {
    assert FreshOk(h.meths, classes[c].freshMethods, c);
    if c != root {
      var p, own := classes[c].parent.value, classes[c].freshMethods;
      ParentFacts(classes, depth, deepest, root, h, vars, c);
      OneSlotPerName(classes, depth, deepest, root, h, vars, p);
      hide Whole, Under, Tree, SameSignature, OverridesLegal;
      ModelDistinct(h.meths, h.methods[p], own);
      NamesStand(h.meths, classes[c].isFinal, h.methods[c], VtableModel(h.meths, h.methods[p], own));
    }
  }

  lemma NamesStand(meths: seq<Meth>, isFinal: bool, list: seq<nat>, model: seq<nat>)
    requires AllStandFor(meths, isFinal, list, model) && DistinctNames(meths, model) && Known(meths, list)
    ensures DistinctNames(meths, list)
  {
    forall i | 0 <= i < |list|
      ensures meths[list[i]].name == meths[model[i]].name
    {
      assert StandsFor(meths, isFinal, list[i], model[i]);
    }
  }

  lemma WholeSizes(classes: seq<ClassDecl>, depth: seq<nat>, deepest: nat, root: nat, h: Heap, vars: seq<seq<nat>>)
    requires Whole(classes, depth, deepest, root, h, vars)
    ensures Tree(classes, depth, deepest) && root < |classes| && |h.methods| == |vars| == |classes| == |depth|
  {
  }

  /** So what is called through a slot of any ancestor is compatible with the ancestor's method. */
  lemma {:induction false} AncestorSlots(classes: seq<ClassDecl>, depth: seq<nat>, deepest: nat, root: nat, h: Heap,
                                         vars: seq<seq<nat>>, c: nat, a: nat)
    requires Whole(classes, depth, deepest, root, h, vars) && c < |classes| && a < |classes| && c != a
    requires Under(classes, depth, c, root) && Under(classes, depth, a, root) && Under(classes, depth, c, a)
    ensures c < |h.methods| && a < |h.methods| && Known(h.meths, h.methods[a]) && Known(h.meths, h.methods[c])
    ensures |h.methods[a]| <= |h.methods[c]| && vars[a] <= vars[c]
    ensures forall i | 0 <= i < |h.methods[a]| :: SameSignature(h.meths[h.methods[c][i]], h.meths[h.methods[a][i]])
    decreases depth[c]
  {
    hide Whole, Tree, SameSignature;
    WholeSizes(classes, depth, deepest, root, h, vars);
    UnderDeeper(classes, depth, deepest, c, a);
    UnderDeeper(classes, depth, deepest, a, root);
    SlotsMatch(classes, depth, deepest, root, h, vars, c);
    var p := classes[c].parent.value;
    if p != a {
      AncestorSlots(classes, depth, deepest, root, h, vars, p, a);
      forall i | 0 <= i < |h.methods[a]|
        ensures SameSignature(h.meths[h.methods[c][i]], h.meths[h.methods[a][i]])
      {
        SameSignatureIsEquivalence(h.meths[h.methods[c][i]], h.meths[h.methods[p][i]], h.meths[h.methods[a][i]]);
      }
    }
  }
}
