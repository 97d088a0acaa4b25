/** The stages of the generator in the order `main` runs them, and what the parser they emit
    accepts. */
module Generators {
  import opened Grammars
  import opened FirstSets
  import opened Actions
  import opened Collections
  import opened StateBuilders
  import opened FollowSets
  import opened Conflicts
  import opened Machines
  import opened Compression
  import opened RowFacts
  import opened CompressedTables
  import opened SoundTables
  import opened Simulation
  import opened Exactness
  import opened Completeness
  import opened Loops
  import opened Endings
  import opened Resorting
  import opened Emission
  import opened Parsers

  /** The start symbol has a rule and is on no right-hand side: otherwise an error is reported. */
  ghost predicate WellFormed(g: Grammar) {
    && g.Valid() && g.StartOffRhs()
    && exists r | 0 <= r < |g.rules| :: g.rules[r].lhs == g.start
  }

  /** What compression is proved for: no state has a tie under %nonassoc, and unit rules without code
      do not go in circles. */
  ghost predicate Admissible(g: Grammar) {
    && WellFormed(g) && NoUnitCycles(g)
    && forall states, fws | Canonical(g, states) && IsLalr(g, states, fws) :: Untied(g, states, fws)
  }

  ghost predicate Untied(g: Grammar, states: seq<State>, fws: map<Config, set<nat>>) {
    forall s | 0 <= s < |states| :: !StateTie(g, states, fws, s)
  }

  /** A grammar without %nonassoc has no ties. */
  lemma UntiedWithoutNonassoc(g: Grammar, states: seq<State>, fws: map<Config, set<nat>>)
    requires NoNonassoc(g)
    ensures Untied(g, states, fws)
  {
    forall s | 0 <= s < |states|
      ensures !StateTie(g, states, fws, s)
    {
      NoTies(g, states, fws, s);
    }
  }

  lemma AdmissibleParts(g: Grammar, states: seq<State>, fws: map<Config, set<nat>>)
    requires Admissible(g) && |states| > 0 && Canonical(g, states) && IsLalr(g, states, fws)
    ensures g.Valid() && g.StartOffRhs() && NoUnitCycles(g) && Untied(g, states, fws)
  {
  }

  /** The lists to be sorted fit the sorter, and symbols fit an int. */
  ghost predicate InRange(g: Grammar) {
    Small(g) && SmallActions(g) && g.NSymbol() < 0x7FFF_FFFF
  }

  /** Everything up to the follow sets. */
  method Analyze(g: Grammar) returns (states: seq<State>, fws: map<Config, set<nat>>)
    requires WellFormed(g) && InRange(g)
    ensures Canonical(g, states) && Covers(states, fws) && IsLalr(g, states, fws)
  {
    hide Canonical, IsLalr, Covers, InRange;
    RangeParts(g);
    var lambda, firstset := new bool[g.NSymbol()], new set<nat>[g.NSymbol()](i => {});
    FindFirstSets(g, lambda, firstset);
    var builder := new StateBuilder(g, lambda[..], firstset[..]);
    builder.FindStates();
    var finder := new FollowFinder(g, builder.states, builder.fws, builder.fplp, builder.bplp);
    finder.FindLinks();
    finder.FindFollowSets();
    states, fws := finder.sorted, finder.fws;
    SomeState(g, states);
    LalrCovers(g, states, fws);
  }

  lemma RangeParts(g: Grammar)
    requires InRange(g)
    ensures Small(g) && SmallActions(g) && g.NSymbol() < 0x7FFF_FFFF
  {
  }

  lemma SomeState(g: Grammar, states: seq<State>)
    requires Canonical(g, states)
    ensures |states| > 0
  {
  }

  lemma LalrCovers(g: Grammar, states: seq<State>, fws: map<Config, set<nat>>)
    requires |states| > 0 && IsLalr(g, states, fws)
    ensures Covers(states, fws)
  {
  }

  /** The rows before compression are made by `resolve_conflict` from all that is wanted, and in those after it
      no unit rule without code is reduced behind the shift of a nonterminal. */
  ghost predicate FromConflicts(b: Build) {
    && |b.states| == |b.rows| == |b.res|
    && forall s | 0 <= s < |b.states| ::
         ResolvedFrom(b.g, b.states, b.fws, s, b.rows[s]) && NoDetours(b.g, b.res[s])
  }

  /** The actions of all states, before and after compression. */
  method MakeActions(g: Grammar, states: seq<State>, fws: map<Config, set<nat>>)
    returns (ghost b: Build, rows: seq<seq<Action>>, auto: seq<bool>, dflt: seq<int>, nconflict: nat)
    requires Admissible(g) && InRange(g) && Canonical(g, states) && Covers(states, fws) && IsLalr(g, states, fws)
    ensures b.Ok() && b.g == g && b.states == states && b.fws == fws && b.res == rows && b.auto == auto
    ensures Recorded(auto, dflt, b.best) && |rows| == |states| == |auto| == |dflt|
    ensures FromConflicts(b) && nconflict == SumConflicts(b.rows)
  {
    hide *;
    RangeParts(g);
    SomeState(g, states);
    AdmissibleParts(g, states, fws);
    var n := |states|;
    var ap := new seq<Action>[n](i requires 0 <= i < n => states[i].ap);
    var ok;
    nconflict, ok := FindActions(g, states, fws, ap);
    ghost var before := ap[..];
    RowsFinished(g, states, fws, before);
    var autoReduce, pDfltReduce := new bool[n](_ => false), new int[n](_ => -1);
    ghost var best := CompressTables(g, states, fws, ap, autoReduce, pDfltReduce);
    rows, auto, dflt := ap[..], autoReduce[..], pDfltReduce[..];
    b := Build(g, states, fws, before, best, auto, rows);
    BuildDone(b, dflt);
  }

  lemma RowsFinished(g: Grammar, states: seq<State>, fws: map<Config, set<nat>>, rows: seq<seq<Action>>)
    requires |rows| == |states| && Untied(g, states, fws)
    requires forall s | 0 <= s < |states| :: RowMade(g, states, fws, s, rows[s])
    ensures ActionRows(g, states, fws, rows) && SmallRows(rows)
    ensures forall s | 0 <= s < |states| :: ResolvedFrom(g, states, fws, s, rows[s])
  {
    hide ActionRow, StateTie, ResolvedFrom;
  }

  lemma BuildDone(b: Build, dflt: seq<int>)
    requires b.g.Valid() && b.g.StartOffRhs() && Canonical(b.g, b.states) && IsLalr(b.g, b.states, b.fws)
    requires ActionRows(b.g, b.states, b.fws, b.rows) && |b.states| == |b.rows|
    requires Compressed(b.g, b.rows, b.best, b.auto, b.res) && Recorded(b.auto, dflt, b.best)
    requires forall s | 0 <= s < |b.states| :: ResolvedFrom(b.g, b.states, b.fws, s, b.rows[s])
    requires forall s | 0 <= s < |b.res| :: NoDetours(b.g, b.res[s])
    ensures b.Ok() && FromConflicts(b) && |b.res| == |b.states| == |b.auto| == |dflt|
  {
    hide Canonical, IsLalr, ActionRow, ResolvedFrom, NoDetours, CompressedRow;
  }

  /** Renumbering and table output. */
  method MakeTables(g: Grammar, rows: seq<seq<Action>>, auto: seq<bool>, dflt: seq<int>)
    returns (t: Tables, ghost v: Numbering, ghost ofst: seq<int>, ghost offsets: map<int, map<int, int>>)
    requires g.Valid() && TableRows(g, auto, dflt, rows) && g.NSymbol() < 0x7FFF_FFFF
    ensures v.Ok() && v.g == g && v.rows == rows && v.auto == auto && Reported(v, t, ofst, offsets)
    ensures HitsExact(v, t) <==> !Clash(v)
  {
    hide TableRows, Reported, InOrder, Grammar.Valid, HitsExact, Clash;
    TableRowsSize(g, auto, dflt, rows);
    var numbers := new StateNumbers(|rows|);
    numbers.ResortStates(g, rows, auto, dflt);
    var w := Numbering(g, rows, auto, dflt, numbers.sorted, numbers.statenum, numbers.nxstate);
    v := w;
    assert Counted(v, numbers.nTknAct, numbers.nNtAct, numbers.iDfltReduce);
    t, ofst, offsets := ReportTables(w, numbers.nTknAct, numbers.nNtAct, numbers.iDfltReduce);
  }

  lemma TableRowsSize(g: Grammar, auto: seq<bool>, dflt: seq<int>, rows: seq<seq<Action>>)
    requires TableRows(g, auto, dflt, rows)
    ensures |rows| == |auto| == |dflt| > 0
  {
  }

  /** A grammar, all that is made of it, and the tables that are emitted. */
  ghost predicate Made(g: Grammar, b: Build, v: Numbering, t: Tables) {
    && b.Ok() && b.g == g && FromConflicts(b)
    && v.Ok() && v.g == g && v.rows == b.res && v.auto == b.auto
    && exists ofst, offsets :: Reported(v, t, ofst, offsets)
  }

  method Generate(g: Grammar) returns (t: Tables, nconflict: nat, ghost b: Build, ghost v: Numbering)
    requires Admissible(g) && InRange(g)
    ensures Made(g, b, v, t) && (HitsExact(v, t) <==> !Clash(v))
    ensures nconflict == SumConflicts(b.rows)
  {
    hide FromConflicts, SumConflicts, Canonical, IsLalr, Covers, InRange, NoUnitCycles, Build.Ok, Numbering.Ok, Reported, TableRows, Recorded;
    hide HitsExact, Clash;
    var states, fws := Analyze(g);
    SomeState(g, states);
    RangeParts(g);
    var rows, auto, dflt;
    b, rows, auto, dflt, nconflict := MakeActions(g, states, fws);
    CompressedTableRows(b, dflt);
    ghost var ofst, offsets;
    t, v, ofst, offsets := MakeTables(g, rows, auto, dflt);
  }

  /** The emitted tables make a parser. */
  lemma MadeParser(g: Grammar, b: Build, v: Numbering, t: Tables)
    requires Made(g, b, v, t)
    ensures HasTables(g, b.states, v, t)
  {
    CompressedRowsSound(b);
    Facts(b, 0);
    hide SoundRows, IsLalr, ActionRows, Compressed, Reported, Numbering.Ok;
  }

  /** What the compressed rows accept when they are fed token by token, once the loop has ended for each
      of them: what the rows of `FindActions` accept. */
  lemma FedIff(b: Build, input: seq<nat>, fuel: nat)
    requires b.Ok() && Tokenized(b.g, input) && FeedEnds(b.g, b.res, [At(0)], input, fuel)
    ensures FeedAll(b.g, b.res, [At(0)], input, fuel).0 <==> exists trace :: Accepts(b.g, b.rows, [At(0)], input, trace)
    ensures FeedAll(b.g, b.res, [At(0)], input, fuel).0 ==> Derives(b.g, b.g.start, input)
    ensures FeedAll(b.g, b.res, [At(0)], input, fuel).0 ==>
              exists trace :: Accepts(b.g, b.rows, [At(0)], input, trace)
                              && Thinned(b.g, trace, FeedAll(b.g, b.res, [At(0)], input, fuel).1)
  {
    hide Build.Ok, Accepts, FeedAll, FeedEnds, Thinned, Tokenized, Derives;
    if trace :| Accepts(b.g, b.rows, [At(0)], input, trace) {
      var trace1 := CompressionPreservesParsing(b, input, trace);
      var more := if fuel < |trace1| then |trace1| else fuel;
      AcceptsIsFed(b.g, b.res, [At(0)], input, trace1, more);
      FeedMoreFuel(b.g, b.res, [At(0)], input, fuel, more);
    }
    if FeedAll(b.g, b.res, [At(0)], input, fuel).0 {
      var trace1 := FeedAll(b.g, b.res, [At(0)], input, fuel).1;
      FedIsAccepts(b.g, b.res, [At(0)], input, fuel);
      var trace := BeforeFromAfter(b, input, trace1);
      CompressedIsSound(b, input, trace1);
    }
  }

  lemma MadeParts(g: Grammar, b: Build, v: Numbering, t: Tables)
    requires Made(g, b, v, t)
    ensures b.Ok() && b.g == g && v.rows == b.res
  {
  }

  /** The emitted tables at work: a parser is made of them and fed the input and then "$".  If the loop of
      `Parse` ends for each token, the parser accepts exactly when the actions of `FindActions` accept,
      with the same shifts and reductions but for skipped unit rules; and what it accepts is derived
      from the start symbol. */
  method ParseInput(g: Grammar, t: Tables, ghost b: Build, ghost v: Numbering, input: seq<nat>, ghost fuel: nat)
    returns (ok: bool, ghost events: seq<Event>)
    requires Made(g, b, v, t) && Packable(v) && Tokenized(g, input)
    requires FeedEnds(g, v.rows, [At(0)], input, fuel)
    ensures (ok, events) == FeedAll(g, v.rows, [At(0)], input, fuel)
    ensures ok <==> exists trace :: Accepts(g, b.rows, [At(0)], input, trace)
    ensures ok ==> exists trace :: Accepts(g, b.rows, [At(0)], input, trace) && Thinned(g, trace, events)
    ensures ok ==> Derives(g, g.start, input)
  {
    hide *;
    MadeParts(g, b, v, t);
    MadeParser(g, b, v, t);
    FedIff(b, input, fuel);
    var parser := new Parser(g, t, b.states, v);
    ok, events := parser.Feed(input, fuel);
  }

  /** A client that hands over the tokens of any number of inputs to a new parser, whatever becomes of them, has
      every error reported but those within three tokens of another. */
  method CountErrors(g: Grammar, t: Tables, ghost b: Build, ghost v: Numbering, tokens: seq<nat>, ghost fuel: nat)
    returns (effects: seq<Effect>, errors: nat)
    requires Made(g, b, v, t) && Packable(v) && Tokenized(g, tokens) && AllEnd(g, v.rows, [At(0)], tokens, fuel)
    ensures effects == Effects(g, v.rows, [At(0)], tokens, fuel) && |effects| == |tokens|
    ensures errors == ReportCount(tokens, effects, |tokens|)
  {
    hide *;
    MadeParser(g, b, v, t);
    var parser := new Parser(g, t, b.states, v);
    effects := parser.FeedOn(tokens, fuel);
    errors := parser.errors;
  }

  /** For a grammar without conflicts whose symbols all derive token strings, the emitted parser decides
      whether the start symbol derives the input: the loop ends on every token. */
  method Recognize(g: Grammar, t: Tables, ghost b: Build, ghost v: Numbering, input: seq<nat>) returns (ok: bool)
    requires Made(g, b, v, t) && Packable(v) && Tokenized(g, input)
    requires AllLive(b.rows) && Productive(g)
    ensures ok <==> Derives(g, g.start, input)
  {
    hide *;
    MadeParts(g, b, v, t);
    ghost var fuel := ConflictlessFeedEnds(b, input);
    ghost var events;
    ok, events := ParseInput(g, t, b, v, input, fuel);
    Decided(b, input, fuel);
  }

  /** If all rules shrink the stack, the loop ends whatever the input and whatever conflicts there were. */
  lemma ShrinkingMade(g: Grammar, b: Build, v: Numbering, t: Tables, input: seq<nat>)
    requires Made(g, b, v, t) && Shrinking(g) && Tokenized(g, input)
    ensures FeedEnds(g, v.rows, [At(0)], input, MostIterations(g, |input|))
  {
    hide *;
    MadeParts(g, b, v, t);
    ParserOk(b);
    CompressedRowsSound(b);
    ShrinkingFeedEnds(g, b.states, b.res, input);
  }

  lemma Decided(b: Build, input: seq<nat>, fuel: nat)
    requires b.Ok() && AllLive(b.rows) && Tokenized(b.g, input) && FeedEnds(b.g, b.res, [At(0)], input, fuel)
    ensures FeedAll(b.g, b.res, [At(0)], input, fuel).0 <==> Derives(b.g, b.g.start, input)
  {
    hide Build.Ok, FeedAll, FeedEnds, Derives, AllLive, Tokenized;
    FedLanguage(b, input);
    FedIff(b, input, fuel);
    if n: nat :| FeedAll(b.g, b.res, [At(0)], input, n).0 {
      var more := if fuel < n then n else fuel;
      AcceptedEnds(b.g, b.res, [At(0)], input, n);
      FeedMoreFuel(b.g, b.res, [At(0)], input, n, more);
      FeedMoreFuel(b.g, b.res, [At(0)], input, fuel, more);
    }
  }
}
