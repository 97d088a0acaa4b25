/** `FindLinks` and `FindFollowSets`: the LALR(1) follow set of every configuration. */
module FollowSets {
  import opened Grammars
  import opened FirstSets
  import opened Items
  import opened Collections

  // ---------------------------------------------------------------- specification

  /** A family of follow sets that answers every demand of the grammar: "$" follows the start
      configurations; what can begin the rest of a rule follows the symbol behind its dot; when
      that rest can vanish, so does what follows the whole rule; and the follow set moves along
      with the dot. */
  ghost predicate LalrClosed(g: Grammar, states: seq<State>, f: map<Config, set<nat>>)
    requires |states| > 0
  {
    && Covers(states, f)
    && (forall i | i in states[0].bp && i in states[0].cfp :: 0 in f[Config(0, i)])
    && (forall c, d | c in f && d in f && c.stp == d.stp && Expands(g, c.item, d.item) :: ExpansionFed(g, f, c, d))
    && (forall c, d | c in f && d in f && BackLink(g, states, c, d) :: f[c] <= f[d])
  }

  ghost predicate ExpansionFed(g: Grammar, f: map<Config, set<nat>>, c: Config, d: Config)
    requires c in f && d in f && Expands(g, c.item, d.item)
  {
    && (forall a: nat | a < g.nterminal && FirstSeq(g, Tail(g, c.item), a) :: a in f[d])
    && (NullableSeq(g, Tail(g, c.item)) ==> f[c] <= f[d])
  }

  ghost predicate Below(f: map<Config, set<nat>>, h: map<Config, set<nat>>) {
    f.Keys <= h.Keys && forall c | c in f :: f[c] <= h[c]
  }

  /** The LALR(1) follow sets: the least such family. */
  ghost predicate IsLalr(g: Grammar, states: seq<State>, f: map<Config, set<nat>>)
    requires |states| > 0
  {
    && LalrClosed(g, states, f)
    && forall h | LalrClosed(g, states, h) :: Below(f, h)
  }

  // ---------------------------------------------------------------- propagation along links

  ghost predicate LinkClosed(init: map<Config, set<nat>>, fplp: map<Config, seq<Config>>, f: map<Config, set<nat>>) {
    && f.Keys == init.Keys
    && Below(init, f)
    && forall c | c in f && c in fplp :: Propagated(fplp, f, c)
  }

  ghost predicate Propagated(fplp: map<Config, seq<Config>>, f: map<Config, set<nat>>, c: Config)
    requires c in f && c in fplp
  {
    forall d | d in fplp[c] && d in f :: f[c] <= f[d]
  }

  ghost predicate LeastLinkClosed(init: map<Config, set<nat>>, fplp: map<Config, seq<Config>>,
                                  f: map<Config, set<nat>>) {
    && LinkClosed(init, fplp, f)
    && forall h | LinkClosed(init, fplp, h) :: Below(f, h)
  }

  /** All links: within a state to the rules a configuration asks for when the rest of its own
      can vanish, and to the configuration with the dot moved. */
  ghost predicate LinksExact(g: Grammar, states: seq<State>, fplp: map<Config, seq<Config>>) {
    && Covers(states, fplp)
    && forall c, d | c in fplp ::
         d in fplp[c] <==> (d.stp == c.stp && Propagates(g, c.item, d.item)) || BackLink(g, states, c, d)
  }

  lemma LinkClosedIffLalrClosed(g: Grammar, states: seq<State>, init: map<Config, set<nat>>,
                                fplp: map<Config, seq<Config>>, f: map<Config, set<nat>>)
    requires |states| > 0 && FwsOk(g, states, init) && LinksExact(g, states, fplp)
    ensures LinkClosed(init, fplp, f) <==> LalrClosed(g, states, f)
  {
    if LinkClosed(init, fplp, f) {
      LinkClosedIsLalrClosed(g, states, init, fplp, f);
    }
    if LalrClosed(g, states, f) {
      LalrClosedIsLinkClosed(g, states, init, fplp, f);
    }
  }

  lemma LinkClosedIsLalrClosed(g: Grammar, states: seq<State>, init: map<Config, set<nat>>,
                               fplp: map<Config, seq<Config>>, f: map<Config, set<nat>>)
    requires |states| > 0 && FwsOk(g, states, init) && LinksExact(g, states, fplp)
    requires LinkClosed(init, fplp, f)
    ensures LalrClosed(g, states, f)
  {
    assert Covers(states, f) by { assert forall c :: c in f <==> c in init; }
    forall i | i in states[0].bp && i in states[0].cfp
      ensures 0 in f[Config(0, i)]
    {
      assert IsConfig(states, Config(0, i));
      assert Generated(g, states, Config(0, i), 0);
      assert 0 in init[Config(0, i)];
    }
    forall c, d | c in f && d in f && c.stp == d.stp && Expands(g, c.item, d.item)
      ensures ExpansionFed(g, f, c, d)
    {
      forall a: nat | a < g.nterminal && FirstSeq(g, Tail(g, c.item), a)
        ensures a in f[d]
      {
        assert IsConfig(states, c);
        assert Contributes(g, c.item, d.item, a);
        assert Generated(g, states, d, a);
        assert a in init[d];
      }
      if NullableSeq(g, Tail(g, c.item)) {
        assert Propagates(g, c.item, d.item);
        assert c in fplp && d in fplp;
        assert d in fplp[c] && Propagated(fplp, f, c);
      }
    }
    forall c, d | c in f && d in f && BackLink(g, states, c, d)
      ensures f[c] <= f[d]
    {
      assert c in fplp && d in fplp;
      assert d in fplp[c] && Propagated(fplp, f, c);
    }
  }

  lemma LalrClosedIsLinkClosed(g: Grammar, states: seq<State>, init: map<Config, set<nat>>,
                               fplp: map<Config, seq<Config>>, f: map<Config, set<nat>>)
    requires |states| > 0 && FwsOk(g, states, init) && LinksExact(g, states, fplp)
    requires LalrClosed(g, states, f)
    ensures LinkClosed(init, fplp, f)
  {
    assert forall c :: c in f <==> c in init;
    forall c, a: nat | c in init && a in init[c]
      ensures a in f[c]
    {
      assert Generated(g, states, c, a);
      if c.stp == 0 && c.item in states[0].bp && a == 0 {
        assert IsConfig(states, c) && c == Config(0, c.item);
      } else {
        var i :| i in states[c.stp].cfp && Contributes(g, i, c.item, a);
        assert IsConfig(states, Config(c.stp, i));
        assert ExpansionFed(g, f, Config(c.stp, i), c);
      }
    }
    forall c | c in f && c in fplp
      ensures Propagated(fplp, f, c)
    {
      forall d | d in fplp[c] && d in f
        ensures f[c] <= f[d]
      {
        assert IsConfig(states, d) && d in fplp;
        if d.stp == c.stp && Propagates(g, c.item, d.item) {
          assert ExpansionFed(g, f, c, d);
        }
      }
    }
  }

  lemma LeastIsLalr(g: Grammar, states: seq<State>, init: map<Config, set<nat>>,
                    fplp: map<Config, seq<Config>>, f: map<Config, set<nat>>)
    requires |states| > 0 && FwsOk(g, states, init) && LinksExact(g, states, fplp)
    requires LeastLinkClosed(init, fplp, f)
    ensures IsLalr(g, states, f)
  {
    LinkClosedIffLalrClosed(g, states, init, fplp, f);
    forall h | LalrClosed(g, states, h)
      ensures Below(f, h)
    {
      LinkClosedIffLalrClosed(g, states, init, fplp, h);
    }
  }

  // ---------------------------------------------------------------- what follows the start rules

  predicate StartRule(g: Grammar, i: Item) {
    i.rule < |g.rules| && g.rules[i.rule].lhs == g.start
  }

  /** Only "$" ever follows a start rule when the start symbol is on no right-hand side. */
  lemma StartFollow(g: Grammar, states: seq<State>, f: map<Config, set<nat>>, c: Config)
    requires g.StartOffRhs() && |states| > 0 && Kernel(states[0]) == StartItems(g) && IsLalr(g, states, f)
    requires c in f && StartRule(g, c.item)
    ensures f[c] <= {0}
  {
    var h := map d | d in f :: if StartRule(g, d.item) then f[d] * {0} else f[d];
    forall d, e | d in h && e in h && d.stp == e.stp && Expands(g, d.item, e.item)
      ensures ExpansionFed(g, h, d, e)
    {
      assert ExpansionFed(g, f, d, e);
      NotExpanded(g, d.item, e.item);
    }
    forall d, e | d in h && e in h && BackLink(g, states, d, e)
      ensures h[d] <= h[e]
    {
      assert f[d] <= f[e] && StartRule(g, d.item) == StartRule(g, e.item);
    }
    assert Covers(states, h) by { assert forall d :: d in h <==> d in f; }
    assert LalrClosed(g, states, h);
    assert Below(f, h);
  }

  lemma NotExpanded(g: Grammar, i: Item, j: Item)
    requires g.StartOffRhs() && Expands(g, i, j)
    ensures !StartRule(g, j)
  {
    assert g.rules[i.rule].rhs[i.dot] in g.rules[i.rule].rhs;
  }

  // ---------------------------------------------------------------- the algorithm

  ghost function Lacking(g: Grammar, f: map<Config, set<nat>>): set<(Config, nat)> {
    set c, a | c in f && 0 <= a < g.nterminal && a !in f[c] :: (c, a)
  }

  ghost predicate Terminals(g: Grammar, f: map<Config, set<nat>>) {
    forall c, a: nat | c in f && a in f[c] :: a < g.nterminal
  }

  /** The nested loops over states and their configurations, as one list. */
  function AllConfigs(states: seq<State>): seq<Config> {
    if states == [] then []
    else AllConfigs(states[..|states| - 1]) + ConfigsOf(|states| - 1, states[|states| - 1].cfp)
  }

  function ConfigsOf(s: nat, cfp: seq<Item>): seq<Config> {
    seq(|cfp|, k requires 0 <= k < |cfp| => Config(s, cfp[k]))
  }

  ghost predicate Lists(states: seq<State>, all: seq<Config>) {
    forall c :: c in all <==> IsConfig(states, c)
  }

  lemma {:induction false} AllConfigsAreAll(states: seq<State>)
    ensures Lists(states, AllConfigs(states))
  {
    if states != [] {
      var n := |states| - 1;
      AllConfigsAreAll(states[..n]);
      forall c
        ensures c in ConfigsOf(n, states[n].cfp) <==> c.stp == n && c.item in states[n].cfp
      {
        if c.stp == n && c.item in states[n].cfp {
          var k :| 0 <= k < |states[n].cfp| && states[n].cfp[k] == c.item;
          assert ConfigsOf(n, states[n].cfp)[k] == c;
        }
      }
    }
  }

  /** The back links of the configurations handled so far have been turned into forward links. */
  ghost predicate Turned(was: map<Config, seq<Config>>, bplp: map<Config, seq<Config>>, done: seq<Config>,
                         fplp: map<Config, seq<Config>>) {
    forall d, c | d in was && d in fplp :: c in fplp[d] <==> c in was[d] || (c in done && IsLinked(bplp, d, c))
  }

  lemma BackLinkTarget(g: Grammar, states: seq<State>, d: Config, c: Config)
    requires Canonical(g, states) && BackLink(g, states, d, c)
    ensures IsConfig(states, c)
  {
    assert StateOk(g, states[c.stp]);
    KernelInItems(g, states[c.stp]);
    assert d.item in ItemsOf(states[d.stp]) && Shifts(g, d.item, SymbolAt(g, d.item));
    assert c.item in Kernel(states[c.stp]);
    assert c.item in ItemsOf(states[c.stp]);
  }

  /** Links lead to configurations. */
  lemma LinkTargets(g: Grammar, states: seq<State>, fplp: map<Config, seq<Config>>)
    requires Canonical(g, states) && LinksExact(g, states, fplp)
    ensures forall c, d | c in fplp && d in fplp[c] :: d in fplp
  {
    forall c, d | c in fplp && d in fplp[c]
      ensures d in fplp
    {
      assert IsConfig(states, c);
      assert StateOk(g, states[c.stp]);
      KernelInItems(g, states[c.stp]);
      if d.stp == c.stp && Propagates(g, c.item, d.item) {
        assert c.item in ItemsOf(states[c.stp]);
        assert d.item in ItemsOf(states[d.stp]);
      } else {
        BackLinkTarget(g, states, c, d);
      }
      assert IsConfig(states, d);
    }
  }

  lemma SourcesKnown(g: Grammar, sorted: seq<State>, was: map<Config, seq<Config>>, fplp: map<Config, seq<Config>>,
                     bplp: map<Config, seq<Config>>, c: Config)
    requires FplpOk(g, sorted, was) && BplpExact(g, sorted, bplp) && fplp.Keys == was.Keys && IsConfig(sorted, c)
    ensures c in bplp && forall d | d in bplp[c] :: d in fplp
  {
    forall d | d in bplp[c]
      ensures d in fplp
    {
      assert BackLink(g, sorted, d, c);
      assert IsConfig(sorted, d) && d in was;
    }
  }

  lemma TurnedAll(g: Grammar, sorted: seq<State>, was: map<Config, seq<Config>>, bplp: map<Config, seq<Config>>,
                  all: seq<Config>, fplp: map<Config, seq<Config>>)
    requires Canonical(g, sorted) && FplpOk(g, sorted, was) && BplpExact(g, sorted, bplp)
    requires fplp.Keys == was.Keys && Turned(was, bplp, all, fplp) && Lists(sorted, all)
    ensures LinksExact(g, sorted, fplp)
  {
    hide Canonical, Propagates, BackLink;
    assert forall c :: c in fplp <==> c in was;
    forall d, c | d in fplp
      ensures c in fplp[d] <==> (c.stp == d.stp && Propagates(g, d.item, c.item)) || BackLink(g, sorted, d, c)
    {
      assert d in was;
      assert c in was[d] <==> c.stp == d.stp && Propagates(g, d.item, c.item);
      if BackLink(g, sorted, d, c) {
        BackLinkTarget(g, sorted, d, c);
        assert c in bplp && IsLinked(bplp, d, c);
      }
      assert c in all && IsLinked(bplp, d, c) <==> BackLink(g, sorted, d, c);
    }
  }

  /** The configuration fields the two passes work on. */
  class FollowFinder {
    const g: Grammar
    const sorted: seq<State>
    var fws: map<Config, set<nat>>
    var fplp: map<Config, seq<Config>>
    var bplp: map<Config, seq<Config>>
    var complete: set<Config>

    constructor (g: Grammar, sorted: seq<State>, fws: map<Config, set<nat>>,
                 fplp: map<Config, seq<Config>>, bplp: map<Config, seq<Config>>)
      ensures this.g == g && this.sorted == sorted && this.fws == fws && this.fplp == fplp && this.bplp == bplp
    {
      this.g, this.sorted, this.fws, this.fplp, this.bplp := g, sorted, fws, fplp, bplp;
      complete := {};
    }

    /** Every back link becomes a forward link at the other end. */
    method FindLinks()
      requires Canonical(g, sorted) && FplpOk(g, sorted, fplp) && BplpExact(g, sorted, bplp)
      modifies this`fplp
      ensures LinksExact(g, sorted, fplp)
    {
      hide *;
      ghost var was := fplp;
      var all := AllConfigs(sorted);
      AllConfigsAreAll(sorted);
      NothingTurned(fplp, bplp);
      for k := 0 to |all|
        invariant fplp.Keys == was.Keys && Turned(was, bplp, all[..k], fplp)
      {
        ListedAt(sorted, all, k);
        SourcesKnown(g, sorted, was, fplp, bplp, all[k]);
        ghost var before := fplp;
        AddForward(all[k]);
        TurnedOne(was, bplp, all, k, before, fplp);
      }
      assert all[..|all|] == all;
      TurnedAll(g, sorted, was, bplp, all, fplp);
    }

    lemma NothingTurned(fplp: map<Config, seq<Config>>, bplp: map<Config, seq<Config>>)
      ensures Turned(fplp, bplp, [], fplp)
    {
    }

    lemma TurnedOne(was: map<Config, seq<Config>>, bplp: map<Config, seq<Config>>, all: seq<Config>, k: nat,
                    before: map<Config, seq<Config>>, after: map<Config, seq<Config>>)
      requires k < |all| && Turned(was, bplp, all[..k], before) && after.Keys == before.Keys && all[k] in bplp
      requires forall d, c | d in after :: c in after[d] <==> c in before[d] || (c == all[k] && d in bplp[all[k]])
      ensures Turned(was, bplp, all[..k + 1], after)
    {
      assert all[..k + 1] == all[..k] + [all[k]];
    }

    /** The links of one configuration, turned round. */
    method AddForward(cfp: Config)
      requires cfp in bplp && forall d | d in bplp[cfp] :: d in fplp
      modifies this`fplp
      ensures fplp.Keys == old(fplp).Keys
      ensures forall d, c | d in fplp :: c in fplp[d] <==> c in old(fplp)[d] || (c == cfp && d in bplp[cfp])
    {
      ghost var was := fplp;
      for p := 0 to |bplp[cfp]|
        invariant fplp.Keys == was.Keys
        invariant forall d, c | d in was :: c in fplp[d] <==> c in was[d] || (c == cfp && d in bplp[cfp][..p])
      {
        var other := bplp[cfp][p];
        fplp := fplp[other := [cfp] + fplp[other]];
        assert bplp[cfp][..p + 1] == bplp[cfp][..p] + [other];
      }
      assert bplp[cfp][..|bplp[cfp]|] == bplp[cfp];
    }

    /** The worklist: a configuration is INCOMPLETE when its follow set has grown since it was last
        propagated. */
    method FindFollowSets()
      requires g.Valid() && Canonical(g, sorted) && FwsOk(g, sorted, fws) && LinksExact(g, sorted, fplp)
      modifies this`fws, this`complete
      ensures IsLalr(g, sorted, fws)
    {
      assert |sorted| > 0;
      hide *;
      ghost var init := fws;
      var all := AllConfigs(sorted);
      AllConfigsAreAll(sorted);
      InvAtStart(g, sorted, fws, fplp);
      complete := {};
      var progress := true;
      while progress
        invariant FollowInv(g, init, fplp, fws, complete)
        invariant !progress ==> forall c | c in all :: c in complete
        decreases Lacking(g, fws), progress
      {
        progress := Pass(init, all);
      }
      AllComplete(g, sorted, init, fplp, fws, complete, all);
      LeastIsLalr(g, sorted, init, fplp, fws);
    }

    /** One pass over all configurations. */
    method Pass(ghost init: map<Config, set<nat>>, all: seq<Config>) returns (progress: bool)
      requires Canonical(g, sorted) && LinksExact(g, sorted, fplp) && Lists(sorted, all)
      requires FollowInv(g, init, fplp, fws, complete)
      modifies this`fws, this`complete
      ensures FollowInv(g, init, fplp, fws, complete)
      ensures if progress then Lacking(g, fws) < Lacking(g, old(fws)) else fws == old(fws)
      ensures !progress ==> forall c | c in all :: c in complete
    {
      hide *;
      progress := false;
      for k := 0 to |all|
        invariant FollowInv(g, init, fplp, fws, complete)
        invariant if progress then Lacking(g, fws) < Lacking(g, old(fws)) else fws == old(fws)
        invariant !progress ==> forall i | 0 <= i < k :: all[i] in complete
      {
        ListedAt(sorted, all, k);
        InvKnows(g, sorted, init, fplp, fws, complete, all[k]);
        if all[k] !in complete {
          var change := Propagate(init, all[k]);
          progress := progress || change;
        }
      }
    }

    /** Propagate one follow set along its links. */
    method Propagate(ghost init: map<Config, set<nat>>, cfp: Config) returns (progress: bool)
      requires FollowInv(g, init, fplp, fws, complete)
      requires cfp in fws && cfp in fplp && cfp !in complete && forall d | d in fplp[cfp] :: d in fplp
      modifies this`fws, this`complete
      ensures FollowInv(g, init, fplp, fws, complete)
      ensures cfp in complete
      ensures if progress then Lacking(g, fws) < Lacking(g, old(fws)) else fws == old(fws) && old(complete) <= complete
    {
      hide FollowInv, Lacking;
      KeysKnown(g, init, fplp, fws, complete);
      progress := false;
      for p := 0 to |fplp[cfp]|
        invariant FollowInv(g, init, fplp, fws, complete)
        invariant fws.Keys == fplp.Keys && fws[cfp] == old(fws)[cfp]
        invariant forall d | d in fplp[cfp][..p] && d in fws :: fws[cfp] <= fws[d]
        invariant if progress then Lacking(g, fws) < Lacking(g, old(fws))
                  else fws == old(fws) && old(complete) <= complete
      {
        var plp := fplp[cfp][p];
        var change := !(fws[cfp] <= fws[plp]);
        if change {
          UnionStep(g, init, fplp, fws, complete, cfp, plp);
          fws := fws[plp := fws[plp] + fws[cfp]];
          complete := complete - {plp};
          progress := true;
        }
        assert fplp[cfp][..p + 1] == fplp[cfp][..p] + [plp];
      }
      assert fplp[cfp][..|fplp[cfp]|] == fplp[cfp];
      OneComplete(g, init, fplp, fws, complete, cfp);
      complete := complete + {cfp};
    }
  }

  /** Sets only hold what every solution holds, and COMPLETE ones have been passed on. */
  ghost predicate FollowInv(g: Grammar, init: map<Config, set<nat>>, fplp: map<Config, seq<Config>>,
                            f: map<Config, set<nat>>, complete: set<Config>) {
    && f.Keys == init.Keys == fplp.Keys
    && Terminals(g, f)
    && Below(init, f)
    && (forall h | LinkClosed(init, fplp, h) :: Below(f, h))
    && (forall c | c in complete && c in f :: Propagated(fplp, f, c))
  }

  lemma ListedAt(states: seq<State>, all: seq<Config>, k: nat)
    requires Lists(states, all) && k < |all|
    ensures IsConfig(states, all[k])
  {
  }

  lemma InvAtStart(g: Grammar, states: seq<State>, f: map<Config, set<nat>>, fplp: map<Config, seq<Config>>)
    requires g.Valid() && FwsOk(g, states, f) && LinksExact(g, states, fplp)
    ensures FollowInv(g, f, fplp, f, {})
  {
    assert forall c :: c in f <==> c in fplp;
    forall c, a: nat | c in f && a in f[c]
      ensures a < g.nterminal
    {
      assert Generated(g, states, c, a);
    }
  }

  lemma InvKnows(g: Grammar, states: seq<State>, init: map<Config, set<nat>>, fplp: map<Config, seq<Config>>,
                 f: map<Config, set<nat>>, complete: set<Config>, c: Config)
    requires FollowInv(g, init, fplp, f, complete) && IsConfig(states, c)
    requires Canonical(g, states) && LinksExact(g, states, fplp)
    ensures c in f && c in fplp && forall d | d in fplp[c] :: d in fplp
  {
    LinkTargets(g, states, fplp);
  }

  lemma KeysKnown(g: Grammar, init: map<Config, set<nat>>, fplp: map<Config, seq<Config>>,
                  f: map<Config, set<nat>>, complete: set<Config>)
    requires FollowInv(g, init, fplp, f, complete)
    ensures f.Keys == fplp.Keys
  {
  }

  lemma OneComplete(g: Grammar, init: map<Config, set<nat>>, fplp: map<Config, seq<Config>>,
                    f: map<Config, set<nat>>, complete: set<Config>, c: Config)
    requires FollowInv(g, init, fplp, f, complete) && c in f && c in fplp && Propagated(fplp, f, c)
    ensures FollowInv(g, init, fplp, f, complete + {c})
  {
  }

  lemma UnionStep(g: Grammar, init: map<Config, set<nat>>, fplp: map<Config, seq<Config>>,
                  f: map<Config, set<nat>>, complete: set<Config>, c: Config, d: Config)
    requires FollowInv(g, init, fplp, f, complete)
    requires c in f && d in f && d in fplp[c] && !(f[c] <= f[d])
    ensures var f' := f[d := f[d] + f[c]];
            FollowInv(g, init, fplp, f', complete - {d}) && Lacking(g, f') < Lacking(g, f)
  {
    var f' := f[d := f[d] + f[c]];
    forall h | LinkClosed(init, fplp, h)
      ensures Below(f', h)
    {
      assert Below(f, h) && Propagated(fplp, h, c);
    }
    forall e | e in complete - {d} && e in f'
      ensures Propagated(fplp, f', e)
    {
      assert Propagated(fplp, f, e);
    }
    var a :| a in f[c] && a !in f[d];
    assert (d, a) in Lacking(g, f) && (d, a) !in Lacking(g, f');
  }

  lemma AllComplete(g: Grammar, states: seq<State>, init: map<Config, set<nat>>, fplp: map<Config, seq<Config>>,
                    f: map<Config, set<nat>>, complete: set<Config>, all: seq<Config>)
    requires FollowInv(g, init, fplp, f, complete) && LinksExact(g, states, fplp) && Lists(states, all)
    requires forall c | c in all :: c in complete
    ensures LeastLinkClosed(init, fplp, f)
  {
  }
}
