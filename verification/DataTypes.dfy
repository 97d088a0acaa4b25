/** The numbering of semantic types in `print_stack_union`: an open-addressing hash table of the
    trimmed type strings gives every distinct type its number. */
module DataTypes {

  datatype Option<T> = None | Some(value: T)

  /** What the numbering looks at in a symbol. */
  datatype TypedSymbol = TypedSymbol(nonterminal: bool, errsym: bool, dataType: Option<string>)

  /** `ISSPACE`. */
  predicate IsSpace(c: char) { c == ' ' || '\t' <= c <= '\r' }

  /** White space: blank, tab, line feed, vertical tab, form feed and carriage return. */
  ghost predicate White(c: char) {
    c in {' ', '\t', '\n', '\U{B}', '\U{C}', '\r'}
  }

  // ---------------------------------------------------------------- trimming

  /** t is what remains of s when all white space at its ends is taken away, and nothing else. */
  ghost predicate Stripped(s: string, t: string) {
    exists i, j :: 0 <= i <= j <= |s| && StripsAt(s, t, i, j)
  }

  ghost predicate StripsAt(s: string, t: string, i: nat, j: nat)
    requires i <= j <= |s|
  {
    && t == s[i..j]
    && (forall k | 0 <= k < i :: White(s[k])) && (forall k | j <= k < |s| :: White(s[k]))
    && (i < j ==> !White(s[i]) && !White(s[j - 1]))
  }

  /** There is only one such rest. */
  lemma StrippedOnce(s: string, t: string, u: string)
    requires Stripped(s, t) && Stripped(s, u)
    ensures t == u
  {
    var i, j :| 0 <= i <= j <= |s| && StripsAt(s, t, i, j);
    var h, k :| 0 <= h <= k <= |s| && StripsAt(s, u, h, k);
    if i < j && h < k {
      assert i == h && j == k;
    }
  }

  method Standardize(cp: string) returns (stddt: string)
    ensures Stripped(cp, stddt)
  {
    var i := 0;
    while i < |cp| && IsSpace(cp[i])
      invariant 0 <= i <= |cp| && forall k | 0 <= k < i :: White(cp[k])
    {
      i := i + 1;
    }
    stddt := cp[i..];
    var j := |stddt|;
    while j > 0 && IsSpace(stddt[j - 1])
      invariant 0 <= j <= |stddt| && forall k | j <= k < |stddt| :: White(stddt[k])
    {
      j := j - 1;
    }
    assert forall k | i + j <= k < |cp| :: cp[k] == stddt[k - i];
    assert StripsAt(cp, stddt[..j], i, i + j);
    stddt := stddt[..j];
  }

  // ---------------------------------------------------------------- the hash table

  /** The hash in 32-bit unsigned arithmetic, cut to 31 bits, over the size of the table. */
  function Hash(s: string): nat {
    if s == [] then 0 else (Hash(s[..|s| - 1]) * 53 + s[|s| - 1] as int) % 0x1_0000_0000
  }

  function Slot(s: string, arraysize: nat): nat
    requires arraysize > 0
  {
    (Hash(s) % 0x8000_0000) % arraysize
  }

  /** The characters as digits to the base 53. */
  ghost function Polynomial(s: string): nat {
    if s == [] then 0 else Polynomial(s[..|s| - 1]) * 53 + s[|s| - 1] as int
  }

  /** The wrap-around of the 32-bit arithmetic does no harm: the slot is that of the 31 low bits of the number
      with these digits. */
  lemma SlotOfPolynomial(s: string, arraysize: nat)
    requires arraysize > 0
    ensures Slot(s, arraysize) == Polynomial(s) % 0x8000_0000 % arraysize
  {
    HashWraps(s);
    LowBits(Polynomial(s));
  }

  lemma {:induction false} HashWraps(s: string)
    ensures Hash(s) == Polynomial(s) % 0x1_0000_0000
  {
    if s != [] {
      var n := |s| - 1;
      HashWraps(s[..n]);
      Wraps(Polynomial(s[..n]), s[n] as int);
    }
  }

  lemma Wraps(p: nat, c: nat)
    ensures (p % 0x1_0000_0000 * 53 + c) % 0x1_0000_0000 == (p * 53 + c) % 0x1_0000_0000
  {
    var q, r := p / 0x1_0000_0000, p % 0x1_0000_0000;
    assert p * 53 + c == r * 53 + c + q * 53 * 0x1_0000_0000;
  }

  lemma LowBits(p: nat)
    ensures p % 0x1_0000_0000 % 0x8000_0000 == p % 0x8000_0000
  {
    var q, r := p / 0x1_0000_0000, p % 0x1_0000_0000;
    assert p == r + q * 2 * 0x8000_0000;
  }

  /** Probing from slot h, after d steps, around the end of the table. */
  function Probe(h: nat, d: nat, n: nat): nat {
    if h + d < n then h + d else h + d - n
  }

  /** How many steps lead from h to k. */
  function Distance(h: nat, k: nat, n: nat): nat {
    if h <= k then k - h else if k + n >= h then k + n - h else 0
  }

  ghost predicate Filled(types: seq<Option<string>>, k: nat) {
    k < |types| && types[k].Some?
  }

  /** Probing from slot h for the type in slot k meets no empty slot before. */
  ghost predicate Reached(types: seq<Option<string>>, h: nat, k: nat) {
    forall d | 0 <= d < Distance(h, k, |types|) :: Filled(types, Probe(h, d, |types|))
  }

  /** The table holds no type twice, and probing for a type it holds finds it. */
  ghost predicate TableOk(types: seq<Option<string>>) {
    && |types| > 0
    && (forall h, k | 0 <= h < |types| && 0 <= k < |types| && types[h].Some? && types[h] == types[k] :: h == k)
    && (forall k | 0 <= k < |types| && types[k].Some? :: Reached(types, Slot(types[k].value, |types|), k))
  }

  ghost predicate Holds(types: seq<Option<string>>, s: string) {
    exists k :: 0 <= k < |types| && types[k] == Some(s)
  }

  function Used(types: seq<Option<string>>): nat {
    if types == [] then 0 else Used(types[..|types| - 1]) + if types[|types| - 1].Some? then 1 else 0
  }

  lemma {:induction false} SomeSlotEmpty(types: seq<Option<string>>)
    requires Used(types) < |types|
    ensures exists k :: 0 <= k < |types| && types[k] == None
  {
    var n := |types| - 1;
    if types[n].Some? {
      SomeSlotEmpty(types[..n]);
      var k :| 0 <= k < |types[..n]| && types[..n][k] == None;
      assert types[k] == None;
    }
  }

  lemma {:induction false} UsedUpdate(types: seq<Option<string>>, k: nat, s: string)
    requires k < |types| && types[k] == None
    ensures Used(types[k := Some(s)]) == Used(types) + 1
  {
    var n := |types| - 1;
    if k == n {
      assert types[k := Some(s)][..n] == types[..n];
    } else {
      UsedUpdate(types[..n], k, s);
      assert types[k := Some(s)][..n] == types[..n][k := Some(s)];
    }
  }

  /** After d steps without finding s or an empty slot. */
  ghost predicate Searched(types: seq<Option<string>>, h: nat, d: nat, s: string) {
    forall e | 0 <= e < d :: Filled(types, Probe(h, e, |types|)) && types[Probe(h, e, |types|)] != Some(s)
  }

  /** A type that is held is met before any empty slot. */
  lemma MetBefore(types: seq<Option<string>>, h: nat, d: nat, k: nat)
    requires TableOk(types) && k < |types| && types[k].Some? && h == Slot(types[k].value, |types|)
    requires d < |types| && types[Probe(h, d, |types|)] == None
    ensures Distance(h, k, |types|) < d && Probe(h, Distance(h, k, |types|), |types|) == k
  {
    var e, p := Distance(h, k, |types|), Probe(h, d, |types|);
    assert Probe(h, e, |types|) == k;
    assert Reached(types, h, k);
    assert d < e ==> Filled(types, p);
  }

  /** An empty slot ends the search, and rightly. */
  lemma NotHeld(types: seq<Option<string>>, h: nat, d: nat, s: string)
    requires TableOk(types) && h == Slot(s, |types|) && d < |types| && Searched(types, h, d, s)
    requires types[Probe(h, d, |types|)] == None
    ensures !Holds(types, s)
  {
    hide TableOk;
    forall k | 0 <= k < |types| && types[k].Some?
      ensures types[k] != Some(s)
    {
      if types[k].value == s { MetBefore(types, h, d, k); }
    }
  }

  /** The number of one type: where it is, or where it is put.  Probing ends because the table is
      never full. */
  method Number(types: array<Option<string>>, stddt: string) returns (dtnum: nat)
    requires TableOk(types[..]) && Used(types[..]) < types.Length
    modifies types
    ensures TableOk(types[..]) && 0 < dtnum <= types.Length && types[dtnum - 1] == Some(stddt)
    ensures forall k | 0 <= k < types.Length && old(types[k]).Some? :: types[k] == old(types[k])
    ensures forall s | Holds(types[..], s) :: s == stddt || Holds(old(types[..]), s)
    ensures Used(types[..]) <= Used(old(types[..])) + 1
  {
    var n := types.Length;
    SomeSlotEmpty(types[..]);
    ghost var free :| 0 <= free < n && types[..][free] == None;
    hide TableOk, Used, Hash, Holds;
    var h := Slot(stddt, n);
    var hash := h;
    ghost var d := 0;
    assert Probe(h, Distance(h, free, n), n) == free;
    while types[hash].Some?
      invariant 0 <= d <= Distance(h, free, n) < n && hash == Probe(h, d, n) < n
      invariant Searched(types[..], h, d, stddt)
      decreases n - d
    {
      if types[hash].value == stddt {
        return hash + 1;
      }
      hash := hash + 1;
      if hash >= n { hash := 0; }
      d := d + 1;
    }
    NotHeld(types[..], h, d, stddt);
    ghost var was := types[..];
    types[hash] := Some(stddt);
    assert types[..] == was[hash := Some(stddt)];
    Inserted(was, h, d, stddt);
    UsedUpdate(was, hash, stddt);
    dtnum := hash + 1;
  }

  lemma Inserted(was: seq<Option<string>>, h: nat, d: nat, s: string)
    requires TableOk(was) && h == Slot(s, |was|) && d < |was| && Searched(was, h, d, s) && !Holds(was, s)
    requires was[Probe(h, d, |was|)] == None
    ensures var types := was[Probe(h, d, |was|) := Some(s)];
            TableOk(types) && forall r | Holds(types, r) :: r == s || Holds(was, r)
  {
    var k := Probe(h, d, |was|);
    var types := was[k := Some(s)];
    forall i | 0 <= i < |types| && types[i].Some?
      ensures Reached(types, Slot(types[i].value, |types|), i)
    {
      if i == k {
        assert Distance(h, k, |was|) == d;
      } else {
        var g := Slot(was[i].value, |was|);
        assert Reached(was, g, i);
        forall e | 0 <= e < Distance(g, i, |types|)
          ensures Filled(types, Probe(g, e, |types|))
        {
          assert Filled(was, Probe(g, e, |was|));
        }
      }
    }
  }

  // ---------------------------------------------------------------- all symbols

  /** name is the symbol's own type without the white space around it, or the default type if it has none. */
  ghost predicate TypedAs(sp: TypedSymbol, vartype: Option<string>, name: string) {
    match sp.dataType
    case Some(cp) => Stripped(cp, name)
    case None => vartype.Some? && Stripped(vartype.value, name)
  }

  /** The symbol is a nonterminal of that type, which is not the type of tokens. */
  ghost predicate HasType(sp: TypedSymbol, vartype: Option<string>, tokentype: Option<string>, name: string) {
    !sp.errsym && sp.nonterminal && TypedAs(sp, vartype, name) && tokentype != Some(name)
  }

  /** The error symbol's number is no other symbol's.  Nonterminals with a type, their own or the default
      type, that is not the type of tokens have positive numbers, equal if and only if their types are
      equal up to white space at the ends.  All other symbols have the number 0. */
  method NumberTypes(symbols: seq<TypedSymbol>, vartype: Option<string>, tokentype: Option<string>)
    returns (dtnum: seq<nat>)
    ensures |dtnum| == |symbols|
    ensures forall i | 0 <= i < |symbols| && symbols[i].errsym :: dtnum[i] == 2 * |symbols| + 1
    ensures forall i | 0 <= i < |symbols| && !symbols[i].errsym ::
              dtnum[i] <= 2 * |symbols| && (dtnum[i] > 0 <==> exists s :: HasType(symbols[i], vartype, tokentype, s))
    ensures forall i, j, s, u | 0 <= i < |symbols| && 0 <= j < |symbols|
              && HasType(symbols[i], vartype, tokentype, s) && HasType(symbols[j], vartype, tokentype, u) ::
              dtnum[i] == dtnum[j] <==> s == u
  {
    hide *;
    var types := new Option<string>[2 * |symbols|](_ => None);
    NothingUsed(types[..]);
    dtnum := [];
    for i := 0 to |symbols|
      invariant |dtnum| == i && (|symbols| > 0 ==> TableOk(types[..])) && Used(types[..]) <= i
      invariant forall k | 0 <= k < i :: Numbered(symbols[k], vartype, tokentype, types[..], dtnum[k])
    {
      ghost var was := types[..];
      var n := NumberOne(types, symbols[i], vartype, tokentype);
      StillNumbered(symbols[..i], vartype, tokentype, was, types[..], dtnum);
      dtnum := dtnum + [n];
    }
    AllNumbered(symbols, vartype, tokentype, types[..], dtnum);
  }

  /** A symbol has one type at most. */
  lemma OneType(sp: TypedSymbol, vartype: Option<string>, s: string, u: string)
    requires TypedAs(sp, vartype, s) && TypedAs(sp, vartype, u)
    ensures s == u
  {
    hide Stripped;
    StrippedOnce(if sp.dataType.Some? then sp.dataType.value else vartype.value, s, u);
  }

  /** One symbol. */
  method NumberOne(types: array<Option<string>>, sp: TypedSymbol, vartype: Option<string>, tokentype: Option<string>)
    returns (n: nat)
    requires TableOk(types[..]) && Used(types[..]) < types.Length
    modifies types
    ensures TableOk(types[..]) && Used(types[..]) <= Used(old(types[..])) + 1
    ensures forall k | 0 <= k < types.Length && old(types[k]).Some? :: types[k] == old(types[k])
    ensures Numbered(sp, vartype, tokentype, types[..], n)
  {
    hide TableOk, Used, Stripped, Holds;
    if sp.errsym {
      return types.Length + 1;
    }
    if !sp.nonterminal || (sp.dataType.None? && vartype.None?) {
      return 0;
    }
    var cp := if sp.dataType.Some? then sp.dataType.value else vartype.value;
    var stddt := Standardize(cp);
    assert TypedAs(sp, vartype, stddt);
    if tokentype == Some(stddt) {
      OnlyTokenType(sp, vartype, tokentype, stddt);
      return 0;
    }
    n := Number(types, stddt);
    assert HasType(sp, vartype, tokentype, stddt);
  }

  lemma OnlyTokenType(sp: TypedSymbol, vartype: Option<string>, tokentype: Option<string>, name: string)
    requires TypedAs(sp, vartype, name) && tokentype == Some(name)
    ensures forall s :: !HasType(sp, vartype, tokentype, s)
  {
    hide TypedAs;
    forall s | TypedAs(sp, vartype, s)
      ensures s == name
    {
      OneType(sp, vartype, s, name);
    }
  }

  lemma StillNumbered(symbols: seq<TypedSymbol>, vartype: Option<string>, tokentype: Option<string>,
                      was: seq<Option<string>>, types: seq<Option<string>>, dtnum: seq<nat>)
    requires |dtnum| == |symbols| && |types| == |was|
    requires forall k | 0 <= k < |was| && was[k].Some? :: types[k] == was[k]
    requires forall k | 0 <= k < |symbols| :: Numbered(symbols[k], vartype, tokentype, was, dtnum[k])
    ensures forall k | 0 <= k < |symbols| :: Numbered(symbols[k], vartype, tokentype, types, dtnum[k])
  {
    hide HasType;
    forall k | 0 <= k < |symbols|
      ensures Numbered(symbols[k], vartype, tokentype, types, dtnum[k])
    {
      assert Numbered(symbols[k], vartype, tokentype, was, dtnum[k]);
    }
  }

  /** So equal numbers mean equal types. */
  lemma AllNumbered(symbols: seq<TypedSymbol>, vartype: Option<string>, tokentype: Option<string>,
                    types: seq<Option<string>>, dtnum: seq<nat>)
    requires |dtnum| == |symbols| && |types| == 2 * |symbols| && (|symbols| > 0 ==> TableOk(types))
    requires forall k | 0 <= k < |symbols| :: Numbered(symbols[k], vartype, tokentype, types, dtnum[k])
    ensures forall i | 0 <= i < |symbols| && symbols[i].errsym :: dtnum[i] == 2 * |symbols| + 1
    ensures forall i | 0 <= i < |symbols| && !symbols[i].errsym ::
              dtnum[i] <= 2 * |symbols| && (dtnum[i] > 0 <==> exists s :: HasType(symbols[i], vartype, tokentype, s))
    ensures forall i, j, s, u | 0 <= i < |symbols| && 0 <= j < |symbols|
              && HasType(symbols[i], vartype, tokentype, s) && HasType(symbols[j], vartype, tokentype, u) ::
              dtnum[i] == dtnum[j] <==> s == u
  {
    hide TableOk, TypedAs;
    if |symbols| > 0 { NoTypeTwice(types); }
    forall i, s | 0 <= i < |symbols| && HasType(symbols[i], vartype, tokentype, s)
      ensures 0 < dtnum[i] <= |types| && types[dtnum[i] - 1] == Some(s)
    {
      assert Numbered(symbols[i], vartype, tokentype, types, dtnum[i]);
      var u :| HasType(symbols[i], vartype, tokentype, u) && types[dtnum[i] - 1] == Some(u);
      OneType(symbols[i], vartype, s, u);
    }
    forall i | 0 <= i < |symbols| && !symbols[i].errsym
      ensures dtnum[i] <= |types| && (dtnum[i] > 0 <==> exists s :: HasType(symbols[i], vartype, tokentype, s))
    {
      assert Numbered(symbols[i], vartype, tokentype, types, dtnum[i]);
    }
  }

  lemma NoTypeTwice(types: seq<Option<string>>)
    requires TableOk(types)
    ensures forall h, k | 0 <= h < |types| && 0 <= k < |types| && types[h].Some? && types[h] == types[k] :: h == k
  {
  }

  ghost predicate Numbered(sp: TypedSymbol, vartype: Option<string>, tokentype: Option<string>,
                           types: seq<Option<string>>, n: nat) {
    if sp.errsym then n == |types| + 1
    else
      || (n == 0 && forall s :: !HasType(sp, vartype, tokentype, s))
      || (0 < n <= |types| && exists s :: HasType(sp, vartype, tokentype, s) && types[n - 1] == Some(s))
  }

  lemma {:induction false} NothingUsed(types: seq<Option<string>>)
    requires forall k | 0 <= k < |types| :: types[k] == None
    ensures Used(types) == 0
    ensures |types| > 0 ==> TableOk(types)
  {
    if types != [] { NothingUsed(types[..|types| - 1]); }
  }
}
