# A verified model of Lemon and of the Clownfish class compiler's core

Lemon is the LALR(1) parser generator bundled with this repository.  It turns a grammar into
nullable and FIRST sets, LR(0) states, propagated lookaheads, conflict-resolved actions, compressed
actions, renumbered states and finally one packed action array, which a table-driven pushdown parser
reads.  The Dafny project here models every one of these stages, and the parser, in the form they
have in `lemon/lemon.c` and `lemon/lempar.c`: fixpoint loops over arrays and fields, a hash table
with chains and rehashing, a worklist, in-place rewriting of action lists, a class for the table
being packed and a class for the parser.  Each stage is proved against a specification that does not
mention its algorithm, and the stages are composed.  Two more stateful parts of the Clownfish
compiler are modelled beside it: growing the inheritance tree (`compiler/src/CFCClass.c`) and strong
and weak reference counting (`compiler/src/CFCBase.c`).

## Main results

What is said of the emitted parser holds on the conditions listed under "Conditions".

* **The emitted parser accepts exactly the language.**  `Generators.Recognize`: for a grammar none of
  whose actions had to be resolved away and whose symbols all derive token strings, a parser made of
  the packed integer tables takes an input, with a loop that ends on every token, and answers whether
  the start symbol derives it.  The run is the postorder of every parse tree
  (`Completeness.DerivedIsAccepted`), so such a grammar is unambiguous (`Completeness.Unambiguous`).
* **With or without conflicts**, as long as its loop ends, the parser on the tables accepts exactly what
  the actions of `FindActions` accept, with the same shifts and reductions but for skipped unit rules,
  and what it accepts is derived from the start symbol (`Generators.ParseInput`).  Every assertion of
  `yy_find_shift_action`, `yy_find_reduce_action`, `yy_reduce` and `yy_accept` holds on the way
  (`Parsers.Parser.Step`).
* **When the loop of `Parse` ends** (`Loops.EndsIff`): it hangs if and only if the machine comes back to
  two topmost stack entries it has been at before.  It ends on every token, right or wrong, without
  conflicts if all symbols derive token strings (`Endings.ConflictlessEnds`), and with any conflicts if
  all rules shrink the stack (`Endings.ShrinkingEnds`).
* **Compression is exact** (`Exactness.CompressionIsExact`): the accepting runs before and after
  `CompressTables` correspond to each other, both ways, with the same shifts and the same reductions
  in order, but for skipped unit rules without code.
* **Conflicts** come out as precedence says, whatever the order of the comparisons: every action wanted in
  a state is in its row with the type that the precedences of the grammar alone determine
  (`Precedences.RowFated`).  A shift is taken unless a reduction takes precedence over it; otherwise the
  reduction by the first rule if that rule has no precedence, and else the first one of the highest
  precedence (`Precedences.LiveIsTaken`).
* **Lookaheads** are the least LALR(1) family (`FollowSets.FollowFinder.FindFollowSets`), **states**
  the canonical collection (`StateBuilders.StateBuilder.FindStates`), **nullable and FIRST** are
  those of derivations (`FirstSets.FindFirstSets`).
* **Coding**: every live action of a compressed row has a code of its own that the driver reads back,
  and every shift left goes to an emitted state (`SoundTables.EmittedCodable`,
  `SoundTables.EmittedCodesInjective`).
* **Packing**: where `acttab_insert` puts a transaction is a function of the table before
  (`ActTabs.FoundPlace`); the offset answers for exactly the transaction, forever, unless the search was
  exhausted and landed on an offset in use (`ActTabs.ActTab.Insert`).  The emitted token lookups are all
  exact if and only if this happens to no token set at the offset of another
  (`Emission.HitsExactIffNoClash`).
* **Vtables** agree with walking up the inheritance chain (`Vtables.DispatchIsResolve`,
  `Vtables.FinalDispatch`), and what is called through a slot of any ancestor has the ancestor's
  signature (`Vtables.AncestorSlots`).
* **Reference counting** frees an object exactly when the last strong and weak reference is gone,
  while destruction re-enters itself (`RefCounts.Heap.Destroy`, `RefCounts.FreedIff`,
  `RefCounts.ReachableAlive`).

## Where the code does not do what it asserts or promises

* `yy_find_shift_action` asserts that the state number is at most YY_SHIFT_COUNT.  That table is cut
  behind the last state with a token action, so the assertion holds in every emitted state if and
  only if the last emitted state has one (`Emission.ShiftCountIff`).  It fails for the grammar
  `s ::= a.  a ::= .  a ::= a b.  b ::= X c.  c ::= .`: shifting X leads to a state beyond the table,
  whatever numbers the states get (`ShiftCounts.ShiftBeyondCount`).
* The hole search of `acttab_insert` can run off its end, and then its collision test has not been
  made.  Token lookups are exact if and only if no such search for a token set ends at the offset of
  another one, which depends on the action rows alone (`Emission.HitsExactIffNoClash`).  It can fail:
  for `s ::= A N K K K.` with 16 tokens, of which A is 1, K 11 and N 14, the state behind A shares the
  offset of the state behind A N, and there the parser shifts K (`Emission.SharedOffset`; the rows and
  the numbers of the states are written out by hand).  Lookups after a reduction are exact in any case
  (`Emission.ReduceLookup`).
* The loop of `Parse` need not end: a rule with an empty right-hand side can be a default and be reduced
  over and over.  `Loops.EndsIff` and `Loops.AlwaysEndsIff` say exactly when.  `Loops.Hangs` has the rows
  of a grammar with a conflict whose parser hangs on a token with which an input can begin, and
  `Loops.HangsOnError` those of a grammar without conflicts, but with a nonterminal that derives no
  token string, whose parser hangs on an error (both written out by hand).
* `msort` loses elements of lists of 2^30 elements or more, and of no others (`MSort.Msort`).
* A tie broken by %nonassoc leaves an ERROR and a REDUCE live on one lookahead.  One live action is
  left on every lookahead if and only if no shift comes through to a reduction it so ties with
  (`Conflicts.ResolvedIffNoTie`; in terms of the state's actions alone, `Conflicts.TieReachedIff`).
* The last assertion of `resolve_conflict` fails if and only if such a tie is followed by another reduction
  on the lookahead: the ERROR then meets an action that has not been settled
  (`Precedences.AssertionFailsIff`; in terms of the state's actions, `Precedences.AssertsIff`; the least
  such list is in `Precedences.NonassocAborts`).
* `ResortStates` is to move automatic states behind the others, where they are left out of the tables.  All
  but state 0 are left out if and only if no state without any action, numbered before one of them, holds
  one back (`ShiftCounts.AutomaticStatesLeftOut`).  It fails for `p ::= A.  s ::= p q.  q ::= q B.` with
  start symbol s (`Resorting.AutomaticEmitted`; the rows are written out by hand).  A state that is not
  automatic is never left out (`Resorting.NotAutomaticEmitted`).
* The comment at `lemon/lempar.c` lines 124-125 says that unused slots hold YY_NO_ACTION; the code
  stores nstate + nrule + 2 there, while YY_NO_ACTION is nstate + 2 * nrule + 2.  The model follows the
  code; no lookup reads such a slot's action (`Emission.ShiftLookup`, `Emission.ReduceLookup`).

## Conditions

The follow sets and all before them need `Generators.WellFormed` and `Generators.InRange`: the start
symbol has a rule and is on no right-hand side (otherwise Lemon reports an error), and the lists given to
`msort` have fewer than 2^30 elements.  Compression and all behind it also need what
`Generators.Admissible` says: no state has a tie under %nonassoc (none has without %nonassoc,
`Generators.UntiedWithoutNonassoc`), and unit rules without code do not go in circles (on which the search
in `CompressTables` would not end or find its symbol).

Tables are emitted for all of these, but the parser made of them is proved to work
(`Parsers.Parser.Step`, `Parsers.Parser.Parse`, `Parsers.Parser.Feed` and what follows from them) for rows
that are `Parsers.Packable`:

* no token sets clash, that is, for no token set the search for a place is exhausted at the offset of
  another (`Emission.Clash`): otherwise some token lookup hits another state's entry
  (`Emission.HitsExactIffNoClash`);
* the last emitted state has a token action: otherwise an assertion fails in it
  (`Emission.ShiftCountIff`).

The parser is that of the default build without an error symbol.

## Model

| member | source | states |
|---|---|---|
| Grammars.DerivesIffRewrites | lemon/lemon.c:786-790 | the meaning of "generates": a parse tree with root x and yield w exists if and only if x rewrites to w step by step |
| Grammars.TreeIsDerivation | lemon/lemon.c:786-790 | every valid parse tree yields a rewriting derivation from its root to its yield |
| Grammars.DerivationIsTree | lemon/lemon.c:786-790 | every rewriting derivation from one symbol has a parse tree |
| FirstSets.FindFirstSets | lemon/lemon.c:791-847 | afterwards `lambda` holds of exactly the symbols that derive the empty string, and `firstset` of each nonterminal is exactly the set of terminals that some string derived from it begins with; both loops terminate |
| FirstSets.ComputeLambdas | lemon/lemon.c:804-819 | from sound flags the first do-while reaches exactly the nullable symbols, a flag more with every repetition |
| FirstSets.ComputeFirsts | lemon/lemon.c:821-845 | from sound sets the second do-while reaches exactly the FIRST sets and leaves `lambda` alone |
| FirstSets.AddFirsts | lemon/lemon.c:825-844 | one rule's scan keeps the sets sound; it reports progress only if a bit was added, and without progress the sets are closed under that rule |
| FirstSets.LambdaFixpoint | lemon/lemon.c:805-819 | sound flags that no rule can extend are exactly nullability |
| FirstSets.FirstFixpoint | lemon/lemon.c:822-845 | sound sets that no rule can extend are exactly the FIRST sets |
| FirstSets.NullableSeqIff | lemon/lemon.c:809-817 | a right-hand side vanishes if and only if all of its symbols do |
| FirstSets.FirstSeqIff | lemon/lemon.c:827-842 | a string can begin with a if and only if one of its symbols can and all before it vanish |
| FirstSets.FirstSeqByTables | lemon/lemon.c:1375-1390 | with exact tables the scan over the rest of a rule collects exactly the terminals that rest can begin with |
| MSort.Merge | lemon/lemon.c:1775-1811 | merging two ascending lists gives an ascending list with exactly their elements |
| MSort.Msort | lemon/lemon.c:1827-1851 | the result is sorted; it has all the elements if and only if the list is shorter than 2^30 |
| MSort.Carry | lemon/lemon.c:1838-1847 | inserting an element keeps every bin i empty or a sorted run of 2^i, and the bins hold all elements so far as long as there are fewer than 2^30 |
| MSort.BinsAreBits | lemon/lemon.c:1842-1846 | bin i is full exactly when bit i of the number of elements held is set |
| MSort.Collect | lemon/lemon.c:1848-1850 | merging the bins gives one ascending list of all their elements |
| Items.ClosureIsClosed | lemon/lemon.c:1354-1396 | the closure contains the kernel and every rule start it asks for |
| Items.ClosureIsLeast | lemon/lemon.c:1354-1396 | the closure is in every closed set that contains the kernel |
| Items.ClosureOrigin | lemon/lemon.c:1362-1374 | an item of the closure is of the kernel, or starts a rule of a symbol behind the dot of another of its items |
| Items.ConfigcmpZero | lemon/lemon.c:5124-5132 | two configurations compare equal only if they are the same |
| Items.SortedItemsUnique | lemon/lemon.c:1406-1412 | a set of configurations has only one sorted list, so equal kernels have equal keys |
| ConfigLists.SortItems | lemon/lemon.c:1398-1412 | sorting a duplicate-free list gives the sorted list of the same configurations |
| ConfigLists.ConfiglistClosure | lemon/lemon.c:1354-1396 | the worklist ends with exactly the closure of the basis, without duplicates; each follow set holds exactly the initial tokens of the basis and what the rests of the expanding rules can begin with; the forward links are exactly the pairs whose rest can vanish |
| ConfigLists.AddTail | lemon/lemon.c:1375-1391 | what is scanned of a rule adds exactly the terminals its rest can begin with, and the scan gets to the end if and only if the rest can vanish |
| StateTables.StatecmpZero | lemon/lemon.c:5135-5147 | two keys compare equal if and only if they are the same list of configurations |
| StateTables.StatehashWraps | lemon/lemon.c:5149-5157 | the hash is the configurations read as digits to the base 571, up to the wrap-around of unsigned arithmetic |
| StateTables.StateTable.constructor | lemon/lemon.c:5195-5211 | an empty table of 128 slots, all chains empty |
| StateTables.StateTable.Lookup | lemon/lemon.c:5276-5282 | the walk along the chain of the key's bucket ends at the node with that key, or the key is nowhere in the table |
| StateTables.StateTable.Find | lemon/lemon.c:5271-5284 | gives exactly the state inserted for an equal kernel, or nothing if there is none |
| StateTables.StateTable.Insert | lemon/lemon.c:5214-5267 | fails and changes nothing if the key is present; else appends key and state in insertion order |
| StateTables.StateTable.Grow | lemon/lemon.c:5232-5256 | doubling and rehashing keeps all bindings and their order |
| Collections.SameKernel | lemon/lemon.c:923-936 | no two states of the collection have the same kernel |
| Collections.EveryKernel | lemon/lemon.c:973-1021 | every non-empty kernel reachable from the start along some string of symbols has its state |
| StateBuilders.StateBuilder.FindStates | lemon/lemon.c:854-907 | builds the canonical collection: state 0 has the start kernel, every kernel is a reachable one and occurs once, every state is closed and its shifts are exactly its gotos; initial follow sets and both kinds of links are exact |
| StateBuilders.StateBuilder.GetState | lemon/lemon.c:913-952 | returns the state of the sorted basis, new with all its successors or old with the new links; earlier states stay as they are |
| StateBuilders.StateBuilder.BuildShifts | lemon/lemon.c:973-1021 | afterwards every configuration of the state that can shift is linked to its moved self in the state its shift goes to, so are those of all states added on the way, and no earlier state has changed; the mutual recursion terminates because the kernels not yet in the table get fewer |
| StateBuilders.Successor | lemon/lemon.c:993-1004 | the inner loop collects exactly the goto on the symbol, links each item to where it came from and marks exactly the items used |
| StateBuilders.PlinkCopy | lemon/lemon.c:930-934 | the old state's configurations get the links collected for the new ones, and no other is touched |
| StateBuilders.CompleteCollection | lemon/lemon.c:973-1021 | once every state is linked, the collection is canonical and the back links are exactly the dot moves |
| FollowSets.LinkClosedIffLalrClosed | lemon/lemon.c:1026-1054 | closed under the links means closed under the LALR(1) demands of the grammar, and conversely |
| FollowSets.LeastIsLalr | lemon/lemon.c:1061-1091 | the least family closed under the links is the least one that answers those demands |
| FollowSets.StartFollow | lemon/lemon.c:892-900 | nothing but "$" follows a rule of the start symbol |
| FollowSets.FollowFinder.FindLinks | lemon/lemon.c:1026-1054 | afterwards the forward links are exactly the propagation inside states and along dot moves |
| FollowSets.FollowFinder.FindFollowSets | lemon/lemon.c:1061-1091 | the follow sets are the LALR(1) ones: the least family with "$" on the start items that is closed under shifts, FIRST of the rest and vanishing rests; the passes end because each adds a bit |
| FollowSets.FollowFinder.Pass | lemon/lemon.c:1075-1090 | one pass either adds a bit or leaves everything COMPLETE and unchanged |
| FollowSets.FollowFinder.Propagate | lemon/lemon.c:1079-1087 | propagating one configuration keeps every COMPLETE one's follow set inside those it is linked to, and the sets below any closed family |
| Conflicts.OneSurvives | lemon/lemon.c:1179-1239 | of two actions on one lookahead exactly one stays live, unchanged, if and only if the pair is not a %nonassoc tie; the error count says whether the loser was marked a conflict |
| Precedences.HigherReductionWins | lemon/lemon.c:1210-1221 | of two reductions the one of higher precedence wins if both have one and these differ; else the one by the earlier rule, and the other is marked a conflict and counted |
| Precedences.ShiftOrReduction | lemon/lemon.c:1187-1209 | of a shift and a reduction the one of higher precedence wins, associativity breaks a tie, %nonassoc makes it an error; without precedences the shift is taken, and the reduction is marked a conflict and counted |
| Precedences.PairsAreFated | lemon/lemon.c:1142-1148 | the comparison of all pairs gives every action of the list the type that the precedences alone determine: the one taken stays live, a reduction that loses is a conflict exactly if precedence does not settle it against what is taken before it comes up |
| Precedences.RowFated | lemon/lemon.c:1097-1149 | so in the row of every state of every grammar, each wanted action once |
| Precedences.LiveIsTaken | lemon/lemon.c:1137-1149 | an action that is not an error is live in the finished row if and only if it is the one to be taken on its lookahead |
| Precedences.AssertionFailsIff | lemon/lemon.c:1222-1238 | the last assertion fails for some pair of the list if and only if a shift comes through to a reduction it ties with under %nonassoc and another reduction comes behind |
| Precedences.AssertsIff | lemon/lemon.c:1222-1238 | the assertion holds throughout a state if and only if no shift ties so with a reduction while a later rule is wanted on the same lookahead |
| Precedences.NonassocAborts | lemon/lemon.c:1222-1238 | the least list for which it fails: a shift and two reductions of the same precedence |
| Conflicts.NonassocLeavesTwo | lemon/lemon.c:1205-1208 | a shift and a reduction that tie come out as an ERROR and a REDUCE, both live |
| Conflicts.ResolveAll | lemon/lemon.c:1142-1148 | the all-pairs pass leaves one live action on every lookahead if and only if no tie is reached, its assertion then holds throughout, and `nconflict` counts exactly the actions marked as conflicts |
| Conflicts.ResolvedIffNoTie | lemon/lemon.c:1142-1148 | for every action list: one live action on each lookahead if and only if no shift comes through to a reduction that it ties with; if one does, an ERROR and a REDUCE remain |
| Conflicts.SortActions | lemon/lemon.c:498-523 | a sorted permutation of the actions |
| Conflicts.ListActions | lemon/lemon.c:1105-1134 | a state's list holds exactly its shifts, a REDUCE for each token in the follow set of each completed configuration, and in state 0 ACCEPT on the start symbol, once each |
| Conflicts.ResolveState | lemon/lemon.c:1137-1149 | the row is made by the all-pairs pass over the sorted list of all wanted actions; it keeps an image of each and of no other, with exactly one live on each lookahead that has any, if and only if the state has no tie under %nonassoc |
| Conflicts.TieReachedIff | lemon/lemon.c:1137-1149 | the pass reaches a tie if and only if some shift of the state ties with a reduction and loses to no reduction by an earlier rule |
| Conflicts.NoTies | lemon/lemon.c:1201-1208 | without %nonassoc no state has a tie |
| Conflicts.FindActions | lemon/lemon.c:1097-1149 | all rows so, for every grammar; `nconflict` is the number of actions marked SSCONFLICT, SRCONFLICT or RRCONFLICT, whether the assertion of `resolve_conflict` held throughout is told, and it did when no state has a tie |
| RowFacts.LiveFacts | lemon/lemon.c:1109-1134 | a live action is a shift along a goto, a reduction of a completed rule (on "$" alone for the start symbol), or ACCEPT in state 0 |
| RowFacts.GotoLive | lemon/lemon.c:1137-1149 | a state with a goto has a live action on that symbol, and on a nonterminal it is the shift |
| Compression.CountIsSize | lemon/lemon.c:4555-4562 | the count that decides about the default is the number of reductions by the rule |
| Compression.FindBest | lemon/lemon.c:4544-4567 | finds the first rule with the most reductions in the row among those not of the start symbol, or tells that there is none |
| Compression.CombineReduces | lemon/lemon.c:4576-4584 | the first reduction by that rule becomes the default, the others NOT_USED, and nothing else changes |
| Compression.MakeDefault | lemon/lemon.c:4542-4595 | afterwards the live actions are exactly the old ones except those by the best rule, plus its default; the state is automatic if and only if there is such a rule and the row has no shift and no other reduction |
| Compression.FoldShifts | lemon/lemon.c:4602-4611 | each shift to an automatic state becomes the SHIFTREDUCE by that state's rule, and nothing else changes |
| Compression.Rename | lemon/lemon.c:4624-4641 | the repetition on one action ends, with the action of a symbol that unit rules make of its own |
| Compression.Shorten | lemon/lemon.c:4620-4642 | every action has been followed through the unit rules without code to one that is not such a rule, so that behind the shift of a nonterminal no rule without code and with one symbol is reduced; the search for the left-hand side never fails |
| Compression.UnitPathShort | lemon/lemon.c:4628-4641 | without cycles a chain of unit rules is no longer than the number of symbols, which is why the repetition ends |
| Compression.RowCompressed | lemon/lemon.c:4533-4643 | the three passes together, for one row |
| CompressedTables.MakeDefaults | lemon/lemon.c:4542-4595 | the first pass over all states records defaults and automatic states |
| CompressedTables.AutomaticIsBlind | lemon/lemon.c:4587-4594 | the rule of an automatic state has a right-hand side and is not of the start symbol, so reducing without a look at the token is safe |
| CompressedTables.CompressTables | lemon/lemon.c:4533-4643 | every row is compressed: on each symbol it has the folded action, followed through unit rules, of which none without code is left behind a nonterminal; `autoReduce` and `pDfltReduce` record the automatic states |
| SoundTables.FoundRowsSound | lemon/lemon.c:1097-1149 | the rows of FindActions only shift along gotos, reduce completed rules and accept in state 0 |
| SoundTables.CompressedLookup | lemon/lemon.c:4542-4612 | on a token a compressed row gives the row's own action, its shift folded, unless that is the default |
| SoundTables.CompressedRowsSound | lemon/lemon.c:4533-4643 | compressed rows are sound too, up to unit rules |
| SoundTables.CompressedTableRows | lemon/lemon.c:4533-4643 | after compression every remaining shift goes to a state that is not automatic, every default is a reduction, and that of an automatic state is its recorded one |
| Machines.LiveOnUnique | lemon/lemon.c:1137-1149 | where one action is live on each lookahead, looking one up finds it wherever it is in the list |
| Machines.WrapTree | lemon/lemon.c:4614-4641 | a skipped unit rule is made up for by a node around the tree, with the same yield |
| Machines.AcceptsIsFed | lemon/lempar.c:790-931 | an accepting run is what feeding token by token makes |
| Machines.FedIsAccepts | lemon/lempar.c:790-931 | and what feeding accepts is an accepting run |
| Soundness.Spelled | lemon/lempar.c:688-691 | for an item in the state on top, the symbols before its dot are on the stack, and its rule was begun in the state below them |
| Soundness.BegunRule | lemon/lempar.c:688-691 | a state that begins a rule has a goto on its left-hand side, or is the start state |
| Soundness.StartAtBottom | lemon/lempar.c:701-705 | only state 0 at the bottom of the stack begins a rule of the start symbol |
| Soundness.ShiftKeeps | lemon/lempar.c:578-613 | a shift keeps the invariant that the stack is a walk through the LR(0) states with parse trees of the consumed tokens |
| Soundness.GotoStep | lemon/lempar.c:688-700 | a reduction finds its goto and keeps that invariant, with the same tokens and the new tree's symbols spelling the rule |
| Soundness.AcceptStep | lemon/lempar.c:701-705 | reducing a rule of the start symbol accepts with the stack at its bottom, on "$", and the tokens are derived |
| Soundness.ReduceKeeps | lemon/lempar.c:631-706 | no reduction meets what the driver asserts against |
| Soundness.AcceptedIsDerived | lemon/lempar.c:790-931 | if the machine accepts, the yield of its stack and the input are derived from the start symbol |
| Simulation.CompressionSimulates | lemon/lemon.c:4533-4643 | from matching stacks, an accepting run before compression is matched by one after it |
| Simulation.CompressionPreservesParsing | lemon/lemon.c:4533-4643 | so from the start: same shifts, same reductions in order, except that unit rules without code may be skipped |
| Lookaheads.FollowIn | lemon/lemon.c:1061-1091 | a token that may follow an item on some stack is in the follow set of its configuration |
| Lookaheads.NextAsksBelow | lemon/lemon.c:1056-1060 | a token that may come next in a state was asked for behind the shifted symbol in the state below |
| Lookaheads.RunReads | lemon/lempar.c:819-828 | in an accepting run the next token may come next for an item of the state on top, and for the rule if the machine reduces |
| Exactness.CompressionReflects | lemon/lemon.c:4533-4643 | every accepting run after compression comes from one before it, although defaults reduce on more tokens |
| Exactness.CompressionIsExact | lemon/lemon.c:4533-4643 | the two tables accept the same inputs, and their runs correspond both ways |
| Completeness.RunTree | lemon/lempar.c:790-931 | in a table without resolved conflicts the machine reads any parse tree of a symbol that is asked for, in postorder, and makes its goto |
| Completeness.RunKids | lemon/lempar.c:631-706 | and it reads the rest of a rule, tree by tree, and reduces it |
| Completeness.OneTrace | lemon/lempar.c:790-931 | stack and input determine the accepting run |
| Completeness.DerivedIsAccepted | lemon/lempar.c:790-931 | hence every token string derived from the start symbol is accepted, and the run is the postorder of each of its parse trees |
| Completeness.Unambiguous | lemon/lemon.c:1137-1149 | so a grammar without conflicts has one parse tree at most for every token string |
| Completeness.CompressedIsSound | lemon/lemon.c:4533-4643 | whatever conflicts there were, what the compressed parser accepts is derived from the start symbol |
| Completeness.CompressedLanguage | lemon/lemon.c:4533-4643 | without conflicts the compressed parser accepts a token string if and only if the start symbol derives it |
| Completeness.FedLanguage | lemon/lempar.c:790-931 | and so it does when it is fed token by token |
| SoundTables.EmittedCodable | lemon/lempar.c:820-829 | for every live action of every compressed row: after renumbering it has a code, the driver's range tests read that back as the same move, and a shift goes to a state below `nxstate` |
| SoundTables.EmittedCodesInjective | lemon/lemon.c:3294-3306 | two live actions of compressed rows have the same code if and only if they are the same move |
| Resorting.AutomaticLeftOut | lemon/lemon.c:4699-4707 | all automatic states but state 0 have numbers from `nxstate` on if and only if no state that is neither automatic nor has any action is numbered before one of them |
| Resorting.AutomaticEmitted | lemon/lemon.c:4699-4707 | rows for which an automatic state is emitted |
| ShiftCounts.AutomaticIff | lemon/lemon.c:4587-4594 | a state other than state 0 is automatic if and only if it has actions and compression leaves none but its default |
| ShiftCounts.AutomaticStatesLeftOut | lemon/lemon.c:4673-4708 | whatever is made of a grammar, all automatic states but state 0 are left out if and only if no state with an empty row comes before one of them |
| Resorting.NotAutomaticEmitted | lemon/lemon.c:4704-4707 | a state that is not automatic has a number below `nxstate`, so every remaining shift goes to an emitted state |
| Resorting.StateNumbers.ResortStates | lemon/lemon.c:4673-4708 | the new numbers are a permutation with state 0 first, ordered by nonterminal actions, then token actions; `nxstate` cuts off the automatic states at the end; counts and default of every state are right |
| Resorting.CountActions | lemon/lemon.c:4680-4697 | the counts of live token and nonterminal actions and the default rule, or nrule for none; the assertion about automatic states holds |
| Resorting.CountsAreSizes | lemon/lemon.c:4685-4691 | the counts are the numbers of live actions on tokens and on nonterminals |
| Resorting.SortStates | lemon/lemon.c:4699-4700 | all states but the first, the ones with most nonterminal actions first, then with most token actions, then with the highest old numbers, none lost |
| Resorting.Invert | lemon/lemon.c:4701-4703 | numbering by position is inverse to the order |
| Resorting.Trim | lemon/lemon.c:4704-4707 | from `nxstate` on all states are automatic, and the one before is not unless it is state 0 |
| ActTabs.PackedAnswers | lemon/lemon.c:682-706 | ownership, each filled slot k with lookahead l belonging to the offset k - l alone, makes every offset answer for exactly its transaction |
| ActTabs.DuplicateIsKnown | lemon/lemon.c:682-706 | an offset that passes the duplicate test was returned before, for the same transaction |
| ActTabs.FitsIsFree | lemon/lemon.c:717-732 | an offset that passes the hole test is not in use |
| ActTabs.AppendFits | lemon/lemon.c:717-732 | the hole test succeeds no later than mnLookahead slots behind the end, as far as the loop gets there |
| ActTabs.ExhaustedSearch | lemon/lemon.c:717-740 | the loop can only run off its end with a table in use and mnLookahead at least 2, and then every slot written is empty and within the allocation |
| ActTabs.WritePacked | lemon/lemon.c:734-740 | writing a transaction into empty slots keeps all earlier entries and their owners, slots behind nAction empty and slot nAction - 1 filled |
| ActTabs.WriteExactIff | lemon/lemon.c:734-740 | the offset written answers for exactly its transaction if and only if it was not in use; if it was, the earlier transaction is no longer answered exactly either |
| ActTabs.AnswersDiffer | lemon/lemon.c:695-704 | one offset cannot answer exactly for two different sets of lookaheads |
| ActTabs.FoundPlace | lemon/lemon.c:682-732 | where the search ends, as a function of the table before: at the highest duplicate, else at the lowest hole, else, exhausted, at a place that is determined too |
| ActTabs.InsertedOk | lemon/lemon.c:652-745 | inserting at that place keeps the table packed; the offset is exact unless the search was exhausted at an offset in use |
| ActTabs.AppendOne | lemon/lemon.c:717-740 | a single new entry goes right behind the used slots if these are filled and none belongs to its offset there |
| ActTabs.ActTab.AddAction | lemon/lemon.c:619-643 | appends to the transaction and keeps its least and greatest lookahead |
| ActTabs.ActTab.Reserve | lemon/lemon.c:660-674 | afterwards the table is the same with unused slots behind it, and the transaction fits there |
| ActTabs.ActTab.FindDuplicate | lemon/lemon.c:682-706 | finds the last offset that has exactly this transaction, or there is none |
| ActTabs.ActTab.FindHole | lemon/lemon.c:717-732 | finds the first slot at which the transaction fits, or none fits before the end of the search; no slot beyond the allocation is read |
| ActTabs.ActTab.Insert | lemon/lemon.c:652-745 | the offset and the whole new table are functions of the table before; the offset answers for exactly the transaction if and only if the search does not exhaust that table, or the offset is not in use; a reused offset has exactly the same transaction, and all other transactions stay as they were |
| ActTabs.ActTab.WriteTransaction | lemon/lemon.c:734-739 | writes exactly the entries of the transaction and moves nAction behind the last |
| Emission.TxMap | lemon/lemon.c:4119-4138 | the transaction of a state maps exactly the tokens, or the nonterminals, with a live action to its code |
| Emission.InsertSet | lemon/lemon.c:4117-4142 | the actions of a row on symbols of one kind go into the table as one transaction, at the place that the table before determines |
| Emission.SortSets | lemon/lemon.c:4112-4115 | all sets in the strict order of `axset_compare`, largest first |
| Emission.PackActions | lemon/lemon.c:4096-4153 | exactly the sets that are not empty are put in, in the order of `axset_compare`, each at the place that those before it determine, and the least offsets are lower bounds |
| Emission.PlacedOk | lemon/lemon.c:4112-4142 | however many sets are in, all entries of each are found at its offset, and an offset answers for the union of the sets placed there |
| Emission.OrderUnique | lemon/lemon.c:4112-4115 | there is only one order of the sets, so the packed table depends on the rows alone |
| Emission.EmitOffsets | lemon/lemon.c:4233-4257 | the offset of every state up to the last that has one, USE_DFLT for those without |
| Emission.EmitSlots | lemon/lemon.c:4197-4231 | every slot with its action and lookahead, empty ones with values no lookup asks for |
| Emission.ReportTables | lemon/lemon.c:4092-4300 | the emitted arrays together: offsets, slots and defaults say what the packed table says; token lookups hit exactly the tokens of their states if and only if no token sets clash |
| Emission.ShiftLookup | lemon/lempar.c:442-502 | if states that share an offset have the same token actions: for every emitted state and token the lookup with offset, range test and lookahead test returns the code of the state's one live action on the token, or else its default |
| Emission.ReduceLookup | lemon/lempar.c:508-533 | for every emitted state and nonterminal with an action the assertions hold and the lookup returns its code |
| Emission.CodeOnToken | lemon/lempar.c:820-829 | that code is the machine's move on the token |
| Emission.CodeOnGoto | lemon/lempar.c:691-702 | and the machine's move after a reduction |
| Emission.HitsExactIffApart | lemon/lempar.c:455-456 | token lookups hit exactly the tokens of their states if and only if states that share an offset have the same token actions |
| Emission.ApartIffNoClash | lemon/lemon.c:4116-4142 | which is so if and only if for no token set the search for a place was exhausted and ended at the offset of another: a property of the rows and their order |
| Emission.HitsExactIffNoClash | lemon/lemon.c:717-745 | hence token lookups are exact if and only if no token sets clash |
| Emission.SharedOffset | lemon/lemon.c:717-745 | rows for which two do: in a state without an action on a token the lookup finds the shift of another state |
| Emission.ShiftCountIff | lemon/lempar.c:449-450 | the assertion holds in every emitted state if and only if the last of them has a token action; all states beyond the table have none |
| ShiftCounts.OnlyDefault | lemon/lemon.c:4542-4595 | a state that shifts no token and completes one rule only, not of the start symbol, has no token action left after compression |
| ShiftCounts.ShiftBeyondCount | lemon/lempar.c:449-450 | whatever is made of a certain grammar, one of its states, to which the parser shifts, lies beyond YY_SHIFT_COUNT |
| Parsers.Exact | lemon/lempar.c:442-502 | for packable rows the emitted token lookups are exact and defined in every emitted state |
| Parsers.ShiftAction | lemon/lempar.c:442-502 | for packable rows, in every state that can be on top, the assertion holds and the result codes the machine's move, pending reductions included |
| Parsers.ReduceAction | lemon/lempar.c:508-533 | wherever the machine goes on after a reduction the assertions hold and the result codes its move |
| Parsers.Parser.constructor | lemon/lempar.c:343-348 | a stack with state 0 alone, yyerrcnt -1 |
| Parsers.Parser.FeedOn | lemon/lempar.c:790-931 | a client that hands over all tokens, right or wrong, for any number of inputs: %syntax_error runs for exactly the errors that are not within three tokens of another, %parse_failure for the errors at the end of an input, %parse_accept for the inputs accepted |
| Parsers.FirstError | lemon/lempar.c:907-918 | the first error of a run is reported |
| Parsers.Parser.Shift | lemon/lempar.c:578-613 | pushes the state or the pending reduction that the machine pushes, and the token with it |
| Parsers.Parser.Reduce | lemon/lempar.c:631-706 | does what the machine does; accepts only with the stack at its bottom, on "$", the tokens shifted being derived from the start symbol |
| Parsers.Parser.Accept | lemon/lempar.c:750-770 | resets yyerrcnt; its assertion is the precondition |
| Parsers.Parser.ParseFailed | lemon/lempar.c:712-728 | clears the stack down to its bottom and runs the failure code once |
| Parsers.Parser.Wrong | lemon/lempar.c:907-928 | reports unless within three tokens of the last error, discards the token, and on "$" fails |
| Parsers.Parser.Step | lemon/lempar.c:819-931 | for packable rows one iteration is one step of the machine; no assertion fails; the loop's test of the stack never ends it early |
| Parsers.Parser.Parse | lemon/lempar.c:790-931 | for every token on which the machine's run ends the call ends, with the effect, the events and the stack of that run, and when it accepts the tokens shifted are derived from the start symbol |
| Parsers.Parser.Feed | lemon/lempar.c:790-931 | a client that hands over all tokens and then "$" is told exactly what the machine accepts, and an accepted input is derived from the start symbol |
| Loops.EndsIff | lemon/lempar.c:819-931 | for every table, stack and token: the loop ends if and only if the run never gets to two topmost places from which it comes back to the same two |
| Loops.AlwaysEndsIff | lemon/lempar.c:819-931 | it ends whatever the stack if and only if there is no such pair of places, which is a property of the rows |
| Loops.RunWithin | lemon/lempar.c:631-706 | a run that never goes below some entries does not depend on what is under them |
| Loops.Hangs | lemon/lempar.c:819-931 | rows of a grammar with a conflict with which the loop goes on for ever on all tokens but one |
| Loops.HangsOnError | lemon/lempar.c:819-931 | rows of a grammar without conflicts with which it goes on for ever on a token that is an error |
| Endings.ShrinkingEnds | lemon/lempar.c:819-931 | if no right-hand side is empty and rules of one symbol do not go in circles, the loop ends after no more iterations than there are pairs of a stack entry and a symbol, and one |
| Endings.ShrinkingFeedEnds | lemon/lempar.c:790-931 | and so it does for every token of every input |
| Endings.StackBeginsSentence | lemon/lempar.c:688-691 | if all symbols derive token strings, the trees on the stack begin a sentence's parse tree in postorder |
| Endings.SameSpan | lemon/lempar.c:790-931 | what the machine does up to a token is determined by the tokens before and by that token |
| Endings.ConflictlessEnds | lemon/lempar.c:819-931 | without conflicts, if all symbols derive token strings, the loop ends on every token, right or wrong, within a bound that depends on the tokens shifted alone |
| Endings.ConflictlessFeedEnds | lemon/lempar.c:790-931 | and so it does for every token of every input |
| Generators.Analyze | lemon/lemon.c:1673-1687 | from a grammar, with or without conflicts and ties: the canonical collection and the LALR(1) follow sets |
| Generators.MakeActions | lemon/lemon.c:1689-1693 | the resolved rows, each made by `resolve_conflict` from all that its state wants, their compression, and the number of conflicts |
| Generators.MakeTables | lemon/lemon.c:1695-1704 | the renumbered states and the emitted arrays, whose token lookups are exact if and only if no token sets clash |
| Generators.Generate | lemon/lemon.c:1673-1704 | all stages in order; each one's precondition is met by those before it; the token lookups of the result are exact if and only if no token sets clash |
| Generators.MadeParser | lemon/lempar.c:790-931 | whatever is emitted are tables of sound rows of the canonical collection, of which a parser can be made |
| Generators.FedIff | lemon/lempar.c:790-931 | the compressed rows, fed token by token, accept an input if and only if the resolved rows accept it |
| Generators.ParseInput | lemon/lempar.c:790-931 | the parser on the emitted tables, if its loop ends, accepts exactly the inputs that the resolved rows accept, with the same shifts and reductions but for skipped unit rules, and each is derived from the start symbol |
| Generators.CountErrors | lemon/lempar.c:907-928 | from a new parser on, exactly the errors that are not within three tokens of another are reported |
| Generators.Recognize | lemon/lempar.c:790-931 | without conflicts, if all symbols derive token strings, the parser on the emitted tables ends and says whether the start symbol derives the input |
| Generators.ShrinkingMade | lemon/lempar.c:790-931 | if all rules shrink the stack its loop ends for every input, whatever conflicts there were |
| DataTypes.Standardize | lemon/lemon.c:3852-3858 | what remains of the type string when all white space at its ends, and nothing else, is taken away |
| DataTypes.StrippedOnce | lemon/lemon.c:3852-3858 | there is only one such rest |
| DataTypes.NotHeld | lemon/lemon.c:3868-3876 | an empty slot ends the probing only if the type is not in the table |
| DataTypes.Inserted | lemon/lemon.c:3876-3884 | entering a type where the probing ended keeps every type findable and none twice |
| DataTypes.Number | lemon/lemon.c:3863-3884 | the number is that of the slot holding the type; a table with an empty slot always ends the probing, wraparound included |
| DataTypes.NumberTypes | lemon/lemon.c:3835-3885 | nonterminals whose type, or else the default type, is not the type of tokens have positive numbers, equal if and only if these types are equal up to white space at the ends; all other symbols have the number 0, but for the error symbol, whose number is no other's; the table never fills up |
| DataTypes.SlotOfPolynomial | lemon/lemon.c:3863-3867 | probing starts at the slot given by the 31 low bits of the characters read as digits to the base 53; the wrap-around of unsigned arithmetic does no harm |
| Vtables.FindFunc | compiler/src/CFCClass.c:430-442 | the method found has the name and is in the list; nothing is found only if none has it |
| Vtables.FoundIsOnly | compiler/src/CFCClass.c:430-442 | a method is found by its name if none before it in the list has that name |
| Vtables.Compatible | compiler/src/CFCMethod.c:148-201 | holds if and only if name, exposure and the names, types and initial values of all parameters but self are the same, and the results have the same type or are both objects that agree in const, nullable, incremented and decremented |
| Vtables.SameSignatureIsEquivalence | compiler/src/CFCMethod.c:148-201 | this is an equivalence, covariant results included |
| Vtables.Hierarchy.Override | compiler/src/CFCMethod.c:204-226 | succeeds if and only if the original is not final and has the same signature, and then the overriding method is no longer novel |
| Vtables.Hierarchy.GatherInherited | compiler/src/CFCClass.c:509-521 | each slot of the parent with the method that overrides it, if there is one; fails if and only if a final method or one with another signature is overridden; novelty is lost by exactly the overriding methods |
| Vtables.Hierarchy.AppendNovel | compiler/src/CFCClass.c:523-530 | appends exactly the fresh methods whose name the parent's vtable does not have, in order |
| Vtables.Hierarchy.FinalizeAll | compiler/src/CFCClass.c:535-543 | every method that is not final is replaced by a copy that differs in being final alone, and no other |
| Vtables.Hierarchy.BequeathMethods | compiler/src/CFCClass.c:498-557 | every class below gets the vtable its parent's determines; it fails only if some class below overrides a method that is final or has another signature; classes elsewhere are untouched |
| Vtables.Hierarchy.BequeathMemberVars | compiler/src/CFCClass.c:476-496 | every class below has its parent's variables followed by its own; others are untouched |
| Vtables.Hierarchy.GrowTree | compiler/src/CFCClass.c:569-592 | a second call fails; otherwise the whole tree has its vtables and variables, or some class overrides a method that is final or has another signature |
| Vtables.Hierarchy.NumNonPackageIvars | compiler/src/CFCClass.c:662-677 | the variables from that index on are exactly those declared along the chain of ancestors in the same parcel |
| Vtables.FindModel | compiler/src/CFCClass.c:509-530 | under each name a vtable has one's own method if there is one, else the parent's |
| Vtables.DispatchIsResolve | compiler/src/CFCClass.c:449-452 | in a grown tree a class that is not final finds under every name exactly the definition in the nearest ancestor or self that declares it |
| Vtables.FinalDispatch | compiler/src/CFCClass.c:449-452 | a final class finds that definition if it is final, else the final copy of it |
| Vtables.SlotsMatch | compiler/src/CFCClass.c:503-504 | each slot of the parent's vtable has a method of the same name and signature in the same slot of the child's, and the parent's variables are a prefix of the child's |
| Vtables.OneSlotPerName | compiler/src/CFCClass.c:498-557 | no class of a grown tree has two slots with the same name |
| Vtables.AncestorSlots | compiler/src/CFCClass.c:498-557 | and so it is for every ancestor: what is called through its slots has the names and signatures of its methods |
| RefCounts.CountsChanged | compiler/src/CFCBase.c:30-113 | changing one object's counts together with the references clients hold to it keeps every count equal to the references there are |
| RefCounts.FreedIff | compiler/src/CFCBase.c:30-39 | between client calls an object's memory is freed if and only if no strong and no weak reference to it is left |
| RefCounts.ReachableAlive | compiler/src/CFCBase.c:80-88 | whatever a client can reach along strong references is alive, so it may be incremented and stored in, and the memory behind every weak pointer found there is not freed |
| RefCounts.RefsUpdate | compiler/src/CFCClass.c:311-340 | replacing an object's fields changes the reference counts of the heap by the difference |
| RefCounts.Heap.Allocate | compiler/src/CFCBase.c:21-28 | a new object with one strong reference, the client's |
| RefCounts.Heap.Incref | compiler/src/CFCBase.c:41-47 | one more strong reference to any alive object, the client's, and its count; nothing for NULL |
| RefCounts.Heap.NewWeak | compiler/src/CFCBase.c:73-78 | one more weak reference to any object whose memory is there, and its count; nothing for NULL |
| RefCounts.Heap.Deref | compiler/src/CFCBase.c:80-88 | dies if and only if the pointer is not NULL and no strong reference to its object is left |
| RefCounts.Heap.CopyArray | compiler/src/CFCClass.c:559-567 | a copy with references of its own: every element is counted once more for each time it is there |
| RefCounts.Heap.FreeArray | compiler/src/CFCClass.c:301-309 | gives up a reference for each element; what is alive afterwards was so before and keeps its fields |
| RefCounts.Heap.Store | compiler/src/CFCClass.c:368-380 | a client's reference becomes a field of an alive object, which its destruction will release |
| RefCounts.Heap.SetWeak | compiler/src/CFCBase.c:90-102 | for a client's weak pointer: the weak reference moves from one object to the other; nothing happens if they are the same |
| RefCounts.Heap.SetWeakField | compiler/src/CFCBase.c:90-102 | the same for a weak pointer inside an alive object |
| RefCounts.Heap.AddChild | compiler/src/CFCClass.c:342-365 | the parent gets a strong reference to the child, and the child's weak pointer goes from its old parent to the new one; nothing else changes but weak counts |
| RefCounts.Heap.ReleaseWeak | compiler/src/CFCBase.c:104-113 | one weak reference less; frees the memory if it was the last of any kind |
| RefCounts.Heap.ReleaseStrong | compiler/src/CFCBase.c:49-61 | one strong reference less, and how many are left; with the last one the object is destroyed, even while others are being destroyed |
| RefCounts.Heap.Destroy | compiler/src/CFCClass.c:311-340 | releases all fields, re-entering itself, and frees the memory or leaves that to the last weak pointer; never frees twice, terminates, and leaves objects under destruction and those still referenced with their fields |
| RefCounts.Heap.DestroyWeak | compiler/src/CFCBase.c:104-113 | a client gives up a weak reference; only that object changes; nothing for NULL |
| RefCounts.Heap.Decref | compiler/src/CFCBase.c:49-61 | a client gives up a strong reference and is told how many are left; all counts are right again afterwards, objects still referenced keep their fields, freed ones stay freed; nothing for NULL |

## Left out

- FirstSets.FindFirstSets: MULTITERMINAL symbols (lines 832-836) are not part of the grammars modelled; a rule with one can be written as a rule for each of its tokens.
- FirstSets.ComputeFirsts: leaves out MULTITERMINAL symbols too.
- FirstSets.AddFirsts: leaves out MULTITERMINAL symbols too.
- FirstSets.FirstSeqByTables: leaves out MULTITERMINAL symbols too (lines 1380-1385).
- ConfigLists.AddTail: leaves out MULTITERMINAL symbols too.
- ConfigLists.ConfiglistClosure: leaves out MULTITERMINAL symbols too, and see below.
- StateBuilders.StateBuilder.BuildShifts: leaves out MULTITERMINAL symbols too (lines 1012-1018).
- StateBuilders.Successor: compares symbols themselves, without the lists of tokens that `same_symbol` compares for MULTITERMINAL symbols.
- %fallback, %wildcard, the error symbol and error recovery with it, the -c and -r options: the default build without them is modelled.
- Generators.Generate: grammars with a tie under %nonassoc are excluded by its precondition, because compression is stated for rows with one live action on each lookahead; `Conflicts.FindActions` says for every grammar what the rows are and which states have ties.
- Generators.MakeActions: excludes them too.
- Compression.MakeDefault: rows with two live actions on a lookahead, as such a tie leaves them, are outside its precondition.
- CompressedTables.MakeDefaults: excludes such rows too.
- CompressedTables.CompressTables: excludes such rows too; without wildcards, its test for them is left out.
- Conflicts.SortActions: actions that agree in symbol, type and rule are ordered by address in the code, and in any way here.
- `FindRulePrecedences`: the precedence symbol of a rule is part of the grammar.
- Parsers.Parser.Parse: its precondition is that the machine's run on the token ends, as the loop does not end otherwise; `Loops.EndsIff` says when that is.
- Endings.ConflictlessEnds: the bound is proved to exist and not computed.
- Parsers.Parser.Shift: the stack grows without fail; overflow with a fixed YYSTACKDEPTH is not modelled.
- Semantic values, destructors and user code in the parser: only how often %parse_accept, %syntax_error and %parse_failure run is counted.
- Emission.EmitSlots: the widths of the emitted integer types are not modelled; action codes and offsets are unbounded, and the largest offsets, which only choose a width, are left out.
- Emission.SharedOffset: the rows and state numbers of its grammar are written out, not computed from it by the modelled stages; the canonical collection does not determine the numbers.
- Loops.Hangs: the rows of its grammar are written out too.
- Loops.HangsOnError: the rows of its grammar are written out too, and that it has no conflicts is not proved.
- Configuration lists are sequences, a configuration is known by its state and item; the relinking of `next` and `bp` pointers, free lists and `Configlist_eat` are not modelled. The rules of a nonterminal are expanded in grammar order, not along `nextlhs`.
- StateTables.StateTable.Insert: nodes are known by their index; the `from` pointers, which nothing reads, and failing allocations are left out.
- MSort.Msort: works on sequences, not by relinking.
- MSort.Qsort: stands for the C library's `qsort` in `ResortStates` and `ReportTable`; any sort will do, as no two elements compare equal there.
- Reports: rules that can never be reduced, `doesReduce`, `y.output`, the header file, statistics, `#line` bookkeeping and all other text.
- DataTypes.NumberTypes: characters are those with non-negative codes; `char` values that the platform extends with a sign are not modelled.
- Vtables.Hierarchy.Override: the cached `novel_method` is not modelled.
- Vtables.Hierarchy.GrowTree: the reference counts of the arrays it builds are not modelled; fresh methods of a class are taken to have distinct names.
- RefCounts.Heap.Destroy: an object's `destroy` is taken to release its fields in order and then itself, as the one of classes does; fields that are NULL are left out of the list.
- The grammar scanner, option parsing, template transfer, and the generators of C, Go, Perl and Python bindings: text in and text out.
