# Parser, rebinding and keyword model

A Dafny model of the hard code that this repository vendors: the Lemon-generated LALR(1) parser of SQLCipher
(`parse.c`), the symbol rebinding of fishhook (`fishhook.c`), and the generated keyword hash (`keywordhash.h`).
`dafny verify dfyconfig.toml` checks all of it.

## The parser

`ActionTables` has the action tables twice: as plain rows, and packed into one array the way Lemon does it.
`Packs` says, from the packer's side, what packing guarantees; that a lookup never sees another row's entry is
proved from it. The entries themselves are parameters, the numeric layout of parse.c:306-329 is not.

`PushDown` is the automaton as a step function on values. One step is one iteration of the loop in
`sqlite3Parser`; a run covers any number of calls. The semantic value of a stack entry is the tree of reduce
actions that made it, of which every actual semantic value is an image, and every call out of the parser
(reduce action, destructor, error message, acceptance) is an event in a log. A value carries the number of the
event that made it, so that no two values are equal. `ParserEngine` is the parser object
itself, a stack array and `yytos` updated in place, each method proved to be its part of that step function.

`Certificate` says when tables are an LR automaton of a grammar: every state carries items, rules with a dot, and
every shift, goto and reduction respects them. A token matches a wanted symbol as itself, as its fallback or as
the wildcard; symbols may stand in for others through the unit rules that Lemon optimised out. Under a
certificate, the modules named `Parser...` prove soundness, the asserts of the C code, termination with an explicit
bound, agreement with an unbounded parser up to the first overflow, agreement with a textbook LR machine, and
conservation of semantic values. `ParserExample` gives tables, grammar and certificate of a small grammar, so the
conditions can be met, a run that accepts, and a run in which an empty rule on a full stack loses a value.

`SelectChain`, `SqlExpr` (with `SqlMeaning`), `SqlSpans`, `ReduceActions`, `ExprParser` and `RefArgs` model the reduce
actions that do more than forward a call: linking compound SELECTs on heap nodes, building and rewriting expressions,
recording their source text, and folding foreign-key clauses into an integer. `SqlExpr.Build` says what each
expression action has to produce; `ReduceActions` are the actions themselves, which write their result over the
entry of their first symbol, and thus over tokens they may still have to read; `ExprParser` runs them on the stack
for an arbitrary expression. `CallLimit` is about the one error they report.

The model keeps these details of the code:

- `yyStackOverflow` starts by stepping down from the entry it is called at (parse.c:1816). From `yy_shift` that
  entry was never filled. From `yy_reduce` (parse.c:2271) it is the live top entry, which is thus dropped without its
  destructor being called.
- A token matched through its fallback or the wildcard is stacked with its own major (parse.c:1889).
- `IN table (list)` ends at the table name in the recorded span, even when a list in parentheses follows
  (parse.c:3476).
- `z[j]&~0x20` (keywordhash.h:144) also turns 0x7F into an underscore, which three keywords contain.

## fishhook

`Rebinding` has the laws of one scan on values; `Fishhook` has images with load commands, sections and symbol
tables, the scan of an image as the nested loops of the C code, and a process in which calls of `rebind_symbols`
and image loads happen in any order. The process invariant is that each scanned slot holds the first match of the
whole list, newest call first, or its load-time pointer.

## The keyword hash

`KeywordTables` transcribes the tables, row by row, and the keyword list. `KeywordEntries` checks them, a few
entries at a time, and collects the result in three lemmas about all entries; `KeywordCodes` does the same for the
codes, against the names of the terminals. `KeywordHash` is the lookup with its
two loops, and the proof that it is a linear search.

## Model

| member | source | states |
|---|---|---|
| ActionTables.HitIsOwn | OCBase/Pods/WCDBOptimizedSQLCipher/parse.c:367-396 | for any packing of rows into one array, the lookahead check of state s on token t succeeds exactly when the plain row of s has t, and then the slot holds that entry, whatever other rows overlap it |
| ActionTables.FindShiftAction | OCBase/Pods/WCDBOptimizedSQLCipher/parse.c:1721-1778 | the entry for the token, else for its fallback, else for the wildcard (never for token 0), else the default, or the pending reduction, said on the row and on `fallback`; all reads are in bounds without the omitted `j>=0` test; the loop retries at most once |
| ActionTables.LookupActs | OCBase/Pods/WCDBOptimizedSQLCipher/parse.c:1733-1777 | said on a row alone: the entry of the token, else that of its fallback, else that of the wildcard, and the default only if nothing the token can be read as has an entry |
| ActionTables.FindReduceAction | OCBase/Pods/WCDBOptimizedSQLCipher/parse.c:1784-1809 | returns the plain goto entry; the asserts of the C code hold whenever the goto row has the symbol |
| Soundness.Elaborate | OCBase/Pods/WCDBOptimizedSQLCipher/parse.c:3898-3933 | a tree the parser built becomes a derivation of the same tokens in the grammar proper once the unit rules that were optimised out are put back and every terminal says what it was read as |
| Soundness.PopMatches | OCBase/Pods/WCDBOptimizedSQLCipher/parse.c:2262-2283 | an item with its dot after d symbols, true of a stack entry, means that the top d entries match those symbols modulo fallback, wildcard and skipped unit rules, and that the rule starts below them |
| Soundness.CodesOf | OCBase/Pods/WCDBOptimizedSQLCipher/parse.c:986-1001 | every entry holds a state or a pending reduction of a non-empty rule; only the top entry can hold a pending reduction; state 0 is at the bottom and only there |
| Soundness.ReduceIsReady | OCBase/Pods/WCDBOptimizedSQLCipher/parse.c:3955-3973 | whenever the tables call for a reduction, enough entries lie above the bottom, they match the right-hand side, the goto lookup hits, and acceptance finds the bare stack |
| Soundness.AlwaysReady | OCBase/Pods/WCDBOptimizedSQLCipher/parse.c:4089-4201 | the invariant discharges every assert of the next iteration |
| Soundness.StepKeepsStack | OCBase/Pods/WCDBOptimizedSQLCipher/parse.c:4089-4201 | shift, reduction, overflow, acceptance and error all keep the stack well linked, bounded or not |
| ParserRuns.StepKeepsInv | OCBase/Pods/WCDBOptimizedSQLCipher/parse.c:4089-4201 | each iteration keeps: well-linked stack, stack spells the shifted tokens, every reduction logged matched its rule, every destructor got a value of its symbol, every acceptance a derivation tree of what was shifted |
| ParserRuns.RunKeepsInv | OCBase/Pods/WCDBOptimizedSQLCipher/parse.c:4089-4201 | the same along every run, over any number of calls |
| ParserRuns.RunNeverStuck | OCBase/Pods/WCDBOptimizedSQLCipher/parse.c:1784-1809 | no run on any token sequence reaches a failing assert before its input is used up |
| ParserRuns.AcceptanceIsDerivation | OCBase/Pods/WCDBOptimizedSQLCipher/parse.c:4020-4040 | LR soundness: whenever any run accepts, the tokens shifted since the last reset, and only those, are the frontier of a derivation from `input` |
| ParserRuns.StackSpellsInput | OCBase/Pods/WCDBOptimizedSQLCipher/parse.c:1857-1892 | at every moment of every run the yields of the stack are exactly the tokens shifted since the last reset (rejected tokens never enter), and each entry derives from its own symbol |
| ParserRuns.LoopExit | OCBase/Pods/WCDBOptimizedSQLCipher/parse.c:4201 | the loop goes on only above the bottom, and a bare stack is left only on acceptance, on overflow, or after an error on a bare stack |
| ParserRuns.StepVerdict | OCBase/Pods/WCDBOptimizedSQLCipher/parse.c:4089-4201 | an iteration leaves its call open without a verdict or ends it with exactly one: shifted, rejected, overflowed or accepted |
| ParserRuns.RunVerdicts | OCBase/Pods/WCDBOptimizedSQLCipher/parse.c:4055-4216 | verdict k of a run is about token k, and the tokens without a verdict are those still to come |
| ParserTermination.FoldLosesWeight | OCBase/Pods/WCDBOptimizedSQLCipher/parse.c:2262-2283 | replacing a matched right-hand side by its left-hand side strictly loses weight, empty rules included |
| ParserTermination.StepPays | OCBase/Pods/WCDBOptimizedSQLCipher/parse.c:4089-4201 | an iteration that does not end its call strictly lowers the potential of the stack; one that does raises it by at most 100 M |
| ParserTermination.CallTerminates | OCBase/Pods/WCDBOptimizedSQLCipher/parse.c:4089-4201 | every sqlite3Parser call ends, after at most 198 M reductions, where M bounds the symbol weights |
| ParserTermination.RunPaidFor | OCBase/Pods/WCDBOptimizedSQLCipher/parse.c:4089-4201 | amortised: the iterations of a run are paid for by the initial potential and 100 M + 1 per token consumed |
| ParserTermination.RunConsumesInput | OCBase/Pods/WCDBOptimizedSQLCipher/parse.c:4089-4201 | any input is consumed completely within a number of iterations linear in its length |
| ParserRefinement.StepAgrees | OCBase/Pods/WCDBOptimizedSQLCipher/parse.c:1871-1876 | the bounded step is the unbounded one unless that needs entry 100; then it is one overflow |
| ParserRefinement.BoundedAgrees | OCBase/Pods/WCDBOptimizedSQLCipher/parse.c:1871-1876 | step for step the same stack, log and input for as long as the unbounded parser fits |
| ParserRefinement.FirstOverflow | OCBase/Pods/WCDBOptimizedSQLCipher/parse.c:1814-1832 | at exactly the first push without room, by shift or by empty rule, one overflow is reported, the popped entries are destroyed, and the parser is at its bottom entry in state 0 |
| ParserRefinement.StepSimulates | OCBase/Pods/WCDBOptimizedSQLCipher/parse.c:3958-3967 | a stored pending rule acts as the plain LR state whose only action is that reduction would, on a stack without limit |
| ParserRefinement.RunSimulates | OCBase/Pods/WCDBOptimizedSQLCipher/parse.c:351-358 | on every token sequence, the shift-reduce encoding and a textbook LR machine go through the same configurations, on a stack without limit |
| ParserRefinement.BoundedSimulates | OCBase/Pods/WCDBOptimizedSQLCipher/parse.c:1871-1876 | the shipped parser with its 100 entries goes through the configurations of the textbook LR machine until that outgrows the array, and then reports one overflow in place of that push |
| ParserLedger.StepBalanced | OCBase/Pods/WCDBOptimizedSQLCipher/parse.c:2262-2273 | no step loses or duplicates a semantic value, except that an empty rule met by a full stack loses exactly the top entry |
| ParserLedger.MadeOnce | OCBase/Pods/WCDBOptimizedSQLCipher/parse.c:1857-1892 | each semantic value, numbered by the event that made it, is made exactly once |
| ParserLedger.RunBalanced | OCBase/Pods/WCDBOptimizedSQLCipher/parse.c:1814-1832 | over any run, the account of each single value is balanced: made = handed over + destroyed + on the stack + lost |
| ParserLedger.NeverTwice | OCBase/Pods/WCDBOptimizedSQLCipher/parse.c:1814-1832 | at any moment of any run, no value has been handed over, destroyed, kept or lost twice, or in two of these ways |
| ParserLedger.FreeBalanced | OCBase/Pods/WCDBOptimizedSQLCipher/parse.c:1693-1707 | sqlite3ParserFree destroys each value still held, once |
| ParserLedger.LifetimeConserves | OCBase/Pods/WCDBOptimizedSQLCipher/parse.c:1669-1707 | over a parser's whole life each value ever made is handed over exactly once, or destroyed exactly once, or lost in that one way |
| ParserExample.EmptyRuleLosesValue | OCBase/Pods/WCDBOptimizedSQLCipher/parse.c:2262-2273 | a concrete grammar and input: 99 tokens fill the array, the empty rule has no room, and the last token's value is lost |
| ParserExample.ExampleMeetsConditions | OCBase/Pods/WCDBOptimizedSQLCipher/parse.c:1125-1458 | packed tables, rules, certificate and weights of that grammar meet every condition together |
| ParserExample.ExampleAccepts | OCBase/Pods/WCDBOptimizedSQLCipher/parse.c:4020-4040 | a run through shift, empty rule, two further reductions and acceptance |
| ParserEngine.Parser.Alloc | OCBase/Pods/WCDBOptimizedSQLCipher/parse.c:1509-1537 | a new parser is the start configuration of the automaton, whatever input follows |
| ParserEngine.Parser.PopParserStack | OCBase/Pods/WCDBOptimizedSQLCipher/parse.c:1669-1682 | drops the top entry and destroys its value, given an entry above the bottom |
| ParserEngine.Parser.StackOverflow | OCBase/Pods/WCDBOptimizedSQLCipher/parse.c:1814-1832 | everything between the bottom and the entry it was called at is destroyed, top down; that entry is not; one overflow is reported |
| ParserEngine.Parser.Shift | OCBase/Pods/WCDBOptimizedSQLCipher/parse.c:1857-1892 | the array code is the shift of the step function, overflow included |
| ParserEngine.Parser.Reduce | OCBase/Pods/WCDBOptimizedSQLCipher/parse.c:2241-2283 | the array code is the reduction of the step function, with its overflow and its acceptance |
| ParserEngine.Parser.FinishReduce | OCBase/Pods/WCDBOptimizedSQLCipher/parse.c:3955-3973 | the goto entry is found, and the left-hand side replaces the right-hand side or is accepted |
| ParserEngine.Parser.Accept | OCBase/Pods/WCDBOptimizedSQLCipher/parse.c:4020-4040 | reached on the bare stack only |
| ParserEngine.Parser.Iterate | OCBase/Pods/WCDBOptimizedSQLCipher/parse.c:4089-4201 | one pass of the loop body is one step of the automaton, and it says whether the loop goes on |
| ParserEngine.Parser.Parse | OCBase/Pods/WCDBOptimizedSQLCipher/parse.c:4055-4216 | feeding one token is a run of the automaton of bounded length, after which the invariant of reachable configurations holds for the rest of the input |
| ParserEngine.Parser.Free | OCBase/Pods/WCDBOptimizedSQLCipher/parse.c:1693-1707 | destroys all entries above the bottom, top down |
| Rebinding.FirstMatchIsFirst | OCBase/Pods/fishhook/fishhook.c:96-111 | the search finds a match with no match before it, and fails only when nothing matches |
| Rebinding.SavedOriginal | OCBase/Pods/fishhook/fishhook.c:99-106 | with cells of their own, the cell of a rebinding ends with the pointer found in the last slot where it was the first match and not installed yet, else keeps its value |
| Rebinding.NothingToSave | OCBase/Pods/fishhook/fishhook.c:100-104 | slots that already hold what the list asks for cause no write to any cell |
| Rebinding.PassIsIdempotent | OCBase/Pods/fishhook/fishhook.c:82-113 | a second pass with the same list changes no slot and no cell |
| Rebinding.PassOverOlder | OCBase/Pods/fishhook/fishhook.h:51-58 | scanning over what an older list installed gives what the longer list would have installed at load time: the later rebinding takes precedence |
| Rebinding.OnlyNewSaves | OCBase/Pods/fishhook/fishhook.c:100-104 | on slots that are up to date, a longer list saves exactly what the new array alone would save |
| Rebinding.OtherCellsKept | OCBase/Pods/fishhook/fishhook.c:100-104 | cells that no rebinding of the array owns are not written |
| Rebinding.RebindingChains | OCBase/Pods/fishhook/fishhook.c:192-208 | for a call with any array: each rebinding of a name to a new pointer saves the previous replacement, if any slot has that name |
| Rebinding.LateImageKeepsCell | OCBase/Pods/fishhook/fishhook.c:176-179 | loading an image keeps a saved pointer exactly when the last slot it saves from, if any, holds that pointer |
| Rebinding.ChainBreaksOnLateImage | OCBase/Pods/fishhook/fishhook.c:176-179 | two hooks and an image loaded afterwards: the newer hook's saved pointer skips the older hook |
| Fishhook.CStringReads | OCBase/Pods/fishhook/fishhook.c:94-95 | a symbol name is read up to its NUL and no further |
| Fishhook.SlotNameMeans | OCBase/Pods/fishhook/fishhook.c:89-100 | a slot is found by a name exactly if its index is none of the three special values and its symbol is that name with one character in front |
| Fishhook.ScannedExactly | OCBase/Pods/fishhook/fishhook.c:156-173 | a section is scanned if and only if it is a lazy or non-lazy pointer section of `__DATA` or `__DATA_CONST`, in an image that is known and has `__LINKEDIT`, a symbol table and, in its last such command, indirect symbols |
| Fishhook.PlacesInOrder | OCBase/Pods/fishhook/fishhook.c:201-205 | images are scanned in the order of loading |
| Fishhook.CommandsInOrder | OCBase/Pods/fishhook/fishhook.c:153-173 | within an image, segments are scanned in the order of the load commands |
| Fishhook.SectionsInOrder | OCBase/Pods/fishhook/fishhook.c:161-171 | within a segment, sections are scanned in their order |
| Fishhook.ScanIsOnePass | OCBase/Pods/fishhook/fishhook.c:156-173 | scanning section by section writes the cells as one scan over all slots would |
| Fishhook.CallCells | OCBase/Pods/fishhook/fishhook.c:192-208 | a call writes the cells as one scan of all slots of all images with its own array would, whatever was requested before |
| Fishhook.CallSavesOriginals | OCBase/Pods/fishhook/fishhook.c:192-208 | after a whole call, the cell of each rebinding of the array holds the pointer of the last slot in any image that it is the first to match and that was not yet installed, else its old value; other cells keep theirs |
| Fishhook.CallChains | OCBase/Pods/fishhook/fishhook.c:192-208 | hooks chain over whole calls: with a slot of that name in any loaded image, the previous replacement is saved |
| Fishhook.RescanChangesNothing | OCBase/Pods/fishhook/fishhook.c:192-208 | scanning all images again changes no slot and no cell |
| Fishhook.CallTwice | OCBase/Pods/fishhook/fishhook.c:192-208 | calling again with the same array, which is then on the list twice, changes no slot and no cell |
| Fishhook.LoadAndSavedOriginals | OCBase/Pods/fishhook/fishhook.c:176-179 | loading an image keeps a saved pointer if and only if the last slot it saves from, if any, holds that pointer |
| Fishhook.ScanSlots | OCBase/Pods/fishhook/fishhook.c:156-173 | in each section a scan of many leaves what a scan of that section alone makes of its contents |
| Fishhook.RescanUpToDate | OCBase/Pods/fishhook/fishhook.c:192-208 | prepending and rescanning brings every slot of every image up to date with the longer list |
| Fishhook.LoadUpToDate | OCBase/Pods/fishhook/fishhook.c:176-179 | scanning a newly loaded image, and only it, keeps everything up to date |
| Fishhook.HappensKeepsWorldOK | OCBase/Pods/fishhook/fishhook.c:176-208 | a call and a load each keep the invariant of the process |
| Fishhook.UpToDateHolds | OCBase/Pods/fishhook/fishhook.c:82-113 | said on the text of the symbols: an up-to-date slot holds the replacement of the first rebinding whose name its symbol is, after one character, and its load-time pointer if there is none |
| Fishhook.EveryInterleaving | OCBase/Pods/fishhook/fishhook.h:51-58 | after any interleaving of calls and loads, each scanned slot of each loaded image holds the replacement of the first rebinding requested for its symbol, newest call first, or its load-time pointer if none was |
| Fishhook.Process.PrependRebindings | OCBase/Pods/fishhook/fishhook.c:62-80 | the new entry is the head; on allocation failure the list is unchanged and -1 is returned |
| Fishhook.Process.PerformRebindingWithSection | OCBase/Pods/fishhook/fishhook.c:82-113 | overwriting slot by slot is one pass over the section's names |
| Fishhook.Process.ScanSlot | OCBase/Pods/fishhook/fishhook.c:91-112 | special indices are left alone, and any other slot is rebound by its symbol's name |
| Fishhook.Process.ReplaceSlot | OCBase/Pods/fishhook/fishhook.c:99-106 | saves the old pointer unless the replacement is already there, then installs |
| Fishhook.Process.TryEntry | OCBase/Pods/fishhook/fishhook.c:98-110 | the array of one entry is searched in order; there is a match exactly if the symbol is some name of the array after one character, and the first match rebinds the slot |
| Fishhook.Process.RebindSlot | OCBase/Pods/fishhook/fishhook.c:96-111 | entry by entry, the first match of the whole list rebinds the slot, and nothing else changes |
| Fishhook.Process.FindCommands | OCBase/Pods/fishhook/fishhook.c:118-147 | an image is scanned exactly when dladdr knows it and it has a symbol table, __LINKEDIT and indirect symbols |
| Fishhook.Process.RebindSymbolsForImage | OCBase/Pods/fishhook/fishhook.c:115-174 | the nested loops scan exactly the pointer sections of the data segments, in order |
| Fishhook.Process.RebindSymbols | OCBase/Pods/fishhook/fishhook.c:192-208 | on success every loaded image is scanned with the longer list, the invariant holds again, and each slot holds the replacement of the first rebinding of its symbol; on failure nothing changes |
| Fishhook.Process.Callback | OCBase/Pods/fishhook/fishhook.c:176-179 | scans the new image with the whole list once it is registered; before that there is nothing to install |
| Fishhook.Process.LoadImage | OCBase/Pods/fishhook/fishhook.c:176-179 | a loaded image is mapped and scanned, the invariant holds again, and each slot holds the replacement of the first rebinding of its symbol |
| SelectChain.DoubleLinkSelect | OCBase/Pods/WCDBOptimizedSQLCipher/parse.c:90-105 | pNext mirrors pPrior over the whole chain, every term of a longer chain is flagged compound, nothing else changes; the error is reported exactly beyond a positive limit without SF_MultiValue |
| SelectChain.LinksAreInverse | OCBase/Pods/WCDBOptimizedSQLCipher/parse.c:90-105 | pPrior and pNext are mutual inverses, and only the two ends have no neighbour |
| SelectChain.WalkIsReversed | OCBase/Pods/WCDBOptimizedSQLCipher/parse.c:90-105 | following pNext from the leftmost term visits every term once, from the first parsed to the last, and ends there |
| SelectChain.ReversedInSourceOrder | OCBase/Pods/WCDBOptimizedSQLCipher/parse.c:2704-2727 | read from its first term on, the chain lists the cores or rows of the first operand and then the term of each further operand after its operator |
| SelectChain.ReduceValues | OCBase/Pods/WCDBOptimizedSQLCipher/parse.c:2774-2779 | a first row is a chain of one term without links, not flagged as multi-row |
| SelectChain.ReduceValuesRow | OCBase/Pods/WCDBOptimizedSQLCipher/parse.c:2781-2795 | a further row becomes the head, and SF_MultiValue moves to it |
| SelectChain.ParseRows | OCBase/Pods/WCDBOptimizedSQLCipher/parse.c:2774-2795 | the rows of a VALUES clause form a chain that lists exactly them, in source order, joined by UNION ALL |
| SelectChain.Attach | OCBase/Pods/WCDBOptimizedSQLCipher/parse.c:2716-2721 | an operand put in front keeps the chain and clears SF_MultiValue on both terms |
| SelectChain.WrapChain | OCBase/Pods/WCDBOptimizedSQLCipher/parse.c:2709-2715 | a right operand of several terms is double-linked and wrapped into one new term; the flags of both chains stay, and the error is that of the linked operand |
| SelectChain.ReduceCompound | OCBase/Pods/WCDBOptimizedSQLCipher/parse.c:2704-2727 | the chain stays left-nested and grows by one term, whatever the right operand; a wrapped operand stays a chain with its operators and SF_MultiValue where they were, and an error is reported exactly when it is too long and not one VALUES clause |
| SelectChain.ReduceSelectStatement | OCBase/Pods/WCDBOptimizedSQLCipher/parse.c:2689-2702 | the finished chain is linked, and a single term is left without links and unflagged; the limit applies unless the chain is one VALUES clause |
| SelectChain.ParseTerm | OCBase/Pods/WCDBOptimizedSQLCipher/parse.c:2704-2727 | one more operator and operand adds one term that stands for exactly that operand: its core or row, or a wrapper of the complete linked chain of its rows, in source order, with SF_MultiValue on their head alone; wrapping reports no error |
| SelectChain.ParseCompound | OCBase/Pods/WCDBOptimizedSQLCipher/parse.c:2689-2795 | for any operands: following pNext from the leftmost term visits exactly the cores, rows and wrappers of the source, in source order, with their operators; wrappers hold complete chains of rows; a single term has no links and no compound flag; in the outer chain and in each wrapped one, SF_MultiValue is on the head alone and only for a VALUES clause of several rows; some step reports an error exactly when a positive limit is exceeded by anything else |
| SqlMeaning.BuildKeepsMeaning | OCBase/Pods/WCDBOptimizedSQLCipher/parse.c:3136-3528 | for arbitrarily nested expressions, the tree the actions build evaluates, in three-valued logic, to what the source form means; a leaf means what its operator and token mean |
| SqlMeaning.InTableKeepsMeaning | OCBase/Pods/WCDBOptimizedSQLCipher/parse.c:3466-3476 | IN table, with a schema or an argument list, and its negation |
| SqlMeaning.InSelectKeepsMeaning | OCBase/Pods/WCDBOptimizedSQLCipher/parse.c:3456-3463 | IN (select) and its negation |
| SqlMeaning.CaseKeepsMeaning | OCBase/Pods/WCDBOptimizedSQLCipher/parse.c:3489-3519 | CASE with or without operand and ELSE: the first WHEN that holds decides |
| SqlMeaning.BuildInMeans | OCBase/Pods/WCDBOptimizedSQLCipher/parse.c:3392-3444 | x IN (...) means x = a OR x = b OR ..., and NOT IN its negation, through the constant, the equality and the list form |
| SqlMeaning.InIsAnyEqual | OCBase/Pods/WCDBOptimizedSQLCipher/parse.c:3432-3440 | deciding membership with NULLs agrees with the chain of equalities |
| SqlMeaning.LikeKeepsMeaning | OCBase/Pods/WCDBOptimizedSQLCipher/parse.c:3287-3326 | infix LIKE and NOT LIKE, with or without ESCAPE, keep the meaning of the operator, given that the function of that name is the operator with swapped arguments |
| SqlMeaning.LikeOpUnpacks | OCBase/Pods/WCDBOptimizedSQLCipher/parse.c:3288-3301 | NOT packed into the top bit of the token length comes out again, and the token is unharmed |
| SqlMeaning.IsKeepsMeaning | OCBase/Pods/WCDBOptimizedSQLCipher/parse.c:3338-3352 | IS and IS NOT, also when rewritten to null tests |
| SqlMeaning.NullTestMeans | OCBase/Pods/WCDBOptimizedSQLCipher/parse.c:185-192 | rewriting a binary IS or IS NOT whose right operand is the literal NULL to a unary test keeps its value |
| SqlMeaning.OnlyLiteralsAreNull | OCBase/Pods/WCDBOptimizedSQLCipher/parse.c:185-192 | a tree is TK_NULL if and only if the expression is the literal NULL, in any parentheses |
| SqlMeaning.NullTestsRewritten | OCBase/Pods/WCDBOptimizedSQLCipher/parse.c:185-192 | IS and IS NOT become the unary tests exactly if the right operand is the literal NULL, in any parentheses; otherwise both operands stay |
| SqlMeaning.BetweenKeepsMeaning | OCBase/Pods/WCDBOptimizedSQLCipher/parse.c:3376-3390 | BETWEEN and NOT BETWEEN, with the NOT outside |
| SqlMeaning.CaseDecodes | OCBase/Pods/WCDBOptimizedSQLCipher/parse.c:3489-3519 | the flat list of a CASE decodes to its WHEN clauses and its ELSE, for any number of them |
| SqlSpans.SpanStartsAtFirstToken | OCBase/Pods/WCDBOptimizedSQLCipher/parse.c:112-205 | every span starts where the first token of the parse starts |
| SqlSpans.SpanEndsAtLastToken | OCBase/Pods/WCDBOptimizedSQLCipher/parse.c:112-205 | every span ends where the last token ends if and only if the parse does not end in `IN table (list)`; otherwise it ends before |
| SqlSpans.TableEnds | OCBase/Pods/WCDBOptimizedSQLCipher/parse.c:3466-3476 | `IN table` ends at the table name, or the name after the dot, whatever list follows |
| SqlSpans.TableListIsLeftOut | OCBase/Pods/WCDBOptimizedSQLCipher/parse.c:3466-3476 | a concrete text of ten bytes whose span has six |
| ReduceActions.SpanSet | OCBase/Pods/WCDBOptimizedSQLCipher/parse.c:112-115 | the result may be written over the first token of the rule, never over the last |
| ReduceActions.SpanExpr | OCBase/Pods/WCDBOptimizedSQLCipher/parse.c:121-144 | a token taken by value may be overwritten by its own span |
| ReduceActions.SpanBinaryExpr | OCBase/Pods/WCDBOptimizedSQLCipher/parse.c:150-158 | the left operand becomes the span of both |
| ReduceActions.ExprNot | OCBase/Pods/WCDBOptimizedSQLCipher/parse.c:163-167 | wraps the tree and leaves the span |
| ReduceActions.SpanUnaryPostfix | OCBase/Pods/WCDBOptimizedSQLCipher/parse.c:172-180 | the operand becomes the span up to the operator |
| ReduceActions.SpanUnaryPrefix | OCBase/Pods/WCDBOptimizedSQLCipher/parse.c:197-207 | correct even when the result overwrites the operator token it reads, because the start is read first |
| ReduceActions.BinaryToUnaryIfNull | OCBase/Pods/WCDBOptimizedSQLCipher/parse.c:185-192 | rewrites the tree just built, in place |
| ReduceActions.ReduceParen | OCBase/Pods/WCDBOptimizedSQLCipher/parse.c:3136-3138 | leaves in the entry of the parenthesis what Build prescribes, although it overwrites that token |
| ReduceActions.ReduceDotted | OCBase/Pods/WCDBOptimizedSQLCipher/parse.c:3154-3161 | both names are read before the first is overwritten |
| ReduceActions.ReduceDotted3 | OCBase/Pods/WCDBOptimizedSQLCipher/parse.c:3164-3173 | all three names are read before the first is overwritten |
| ReduceActions.ReduceCollate | OCBase/Pods/WCDBOptimizedSQLCipher/parse.c:3212-3217 | the operand becomes the span up to the collation name |
| ReduceActions.ReduceCast | OCBase/Pods/WCDBOptimizedSQLCipher/parse.c:3220-3225 | leaves what Build prescribes over the CAST token |
| ReduceActions.ReduceCall | OCBase/Pods/WCDBOptimizedSQLCipher/parse.c:3228-3241 | built aside and copied over the name, with EP_Distinct exactly for DISTINCT; an error exactly when there are more arguments than the limit |
| ReduceActions.ReduceCallStar | OCBase/Pods/WCDBOptimizedSQLCipher/parse.c:3243-3250 | built aside and copied over the name |
| ReduceActions.ReduceCTime | OCBase/Pods/WCDBOptimizedSQLCipher/parse.c:3252-3259 | built aside, since the one token is first and last |
| ReduceActions.ReduceNotLikeOp | OCBase/Pods/WCDBOptimizedSQLCipher/parse.c:3292-3295 | the flag goes into the top bit of the length |
| ReduceActions.ReduceLike | OCBase/Pods/WCDBOptimizedSQLCipher/parse.c:3297-3310 | takes the flag out of the length again and leaves the call, negated or not, with swapped arguments |
| ReduceActions.ReduceLikeEscape | OCBase/Pods/WCDBOptimizedSQLCipher/parse.c:3312-3326 | the same with three arguments |
| ReduceActions.ReduceIs | OCBase/Pods/WCDBOptimizedSQLCipher/parse.c:3338-3344 | IS, with its rewriting |
| ReduceActions.ReduceIsNot | OCBase/Pods/WCDBOptimizedSQLCipher/parse.c:3346-3352 | IS NOT, with its rewriting |
| ExprParser.ParsePrefix | OCBase/Pods/WCDBOptimizedSQLCipher/parse.c:3354-3368 | NOT, BITNOT and the signs, which become operators of their own; the operator token is overwritten by the result |
| ReduceActions.ReduceBetween | OCBase/Pods/WCDBOptimizedSQLCipher/parse.c:3376-3390 | BETWEEN with its NOT outside and its end at the upper bound |
| ReduceActions.ReduceInList | OCBase/Pods/WCDBOptimizedSQLCipher/parse.c:3392-3444 | constant, equality or list, by the number of values |
| ReduceActions.ReduceInTable | OCBase/Pods/WCDBOptimizedSQLCipher/parse.c:3466-3476 | the name, the one after the dot and the argument list are taken from the stack; the end is that of the last name |
| ReduceActions.ReduceInSelect | OCBase/Pods/WCDBOptimizedSQLCipher/parse.c:3456-3463 | IN (select), with its NOT outside |
| ReduceActions.ReduceVector | OCBase/Pods/WCDBOptimizedSQLCipher/parse.c:3261-3274 | the last value is appended to the list, built aside and copied over the parenthesis |
| ReduceActions.ReduceSubselect | OCBase/Pods/WCDBOptimizedSQLCipher/parse.c:3447-3453 | over the parenthesis |
| ReduceActions.ReduceExists | OCBase/Pods/WCDBOptimizedSQLCipher/parse.c:3479-3486 | over the EXISTS token |
| ReduceActions.ReduceCase | OCBase/Pods/WCDBOptimizedSQLCipher/parse.c:3489-3502 | the list of pairs with the ELSE value appended, over the CASE token |
| ExprParser.Parse | OCBase/Pods/WCDBOptimizedSQLCipher/parse.c:3136-3538 | for every expression: running its shifts and in-place actions on the stack leaves one entry with the prescribed tree and span, no entry below it is touched, and an error is reported if and only if some call inside the expression has more arguments than the limit |
| CallLimit.ErrorMeansLongCall | OCBase/Pods/WCDBOptimizedSQLCipher/parse.c:3230-3232 | an error for too many arguments comes from a call inside the expression that has more than the limit |
| CallLimit.LongCallMeansError | OCBase/Pods/WCDBOptimizedSQLCipher/parse.c:3230-3232 | every such call, however deep, is reported |
| CallLimit.NoErrorKeepsLimit | OCBase/Pods/WCDBOptimizedSQLCipher/parse.c:3230-3232 | without an error, no call node of the whole tree has more arguments than the limit, but for the two or three that LIKE becomes |
| ExprParser.ParseAll | OCBase/Pods/WCDBOptimizedSQLCipher/parse.c:3525-3534 | argument lists, value by value |
| ExprParser.ParseWhens | OCBase/Pods/WCDBOptimizedSQLCipher/parse.c:3504-3518 | WHEN clauses, two values each |
| ExprParser.ParseDistinct | OCBase/Pods/WCDBOptimizedSQLCipher/parse.c:2797-2805 | DISTINCT, ALL or nothing in front of the arguments |
| ExprParser.ParseOp | OCBase/Pods/WCDBOptimizedSQLCipher/parse.c:3370-3374 | the NOT of BETWEEN and IN |
| ExprParser.ParseLikeOp | OCBase/Pods/WCDBOptimizedSQLCipher/parse.c:3287-3296 | the NOT of LIKE |
| ExprParser.ParseExpression | OCBase/Pods/WCDBOptimizedSQLCipher/parse.c:3136-3538 | a whole expression on a stack with enough room gives exactly the tree, span and error that the specification prescribes |
| KeywordTables.ANext | OCBase/Pods/WCDBOptimizedSQLCipher/keywordhash.h:72-83 | the next entry of a chain is always an earlier one, so every walk ends |
| KeywordTables.AHash | OCBase/Pods/WCDBOptimizedSQLCipher/keywordhash.h:60-71 | a bucket names one of the 124 entries or none |
| KeywordEntries.AllShaped | OCBase/Pods/WCDBOptimizedSQLCipher/keywordhash.h:84-95 | each entry has the length of its keyword, which starts and ends with a letter |
| KeywordEntries.AllInText | OCBase/Pods/WCDBOptimizedSQLCipher/keywordhash.h:96-107 | each entry spells its keyword in the packed text, in letters but for the underscore of three keywords |
| KeywordEntries.AllFound | OCBase/Pods/WCDBOptimizedSQLCipher/keywordhash.h:137-139 | each keyword is reached from its own bucket, past no equal keyword |
| KeywordCodes.AllNamed | OCBase/Pods/WCDBOptimizedSQLCipher/keywordhash.h:108-134 | the code of each keyword is that of the terminal of its own name, or, for 16 keywords, of the one they share or abbreviate |
| KeywordCodes.AliasWords | OCBase/Pods/WCDBOptimizedSQLCipher/keywordhash.h:152-275 | which keywords these are: LIKE_KW, JOIN_KW, CTIME_KW, TEMP, AUTOINCR and COLUMNKW stand for them |
| KeywordHash.EntryReads | OCBase/Pods/WCDBOptimizedSQLCipher/keywordhash.h:141-144 | every read of the packed text by the inner loop is in bounds |
| KeywordHash.FoldsIsSame | OCBase/Pods/WCDBOptimizedSQLCipher/keywordhash.h:144-144 | clearing bit 0x20 compares like ASCII lower-casing against any keyword, but for 0x7F, which reads as an underscore |
| KeywordHash.HitIsTheKeyword | OCBase/Pods/WCDBOptimizedSQLCipher/keywordhash.h:137-151 | a lookup finds entry i exactly when the text folds to keyword i: sound, complete, unambiguous |
| KeywordHash.HitIsLinearSearch | OCBase/Pods/WCDBOptimizedSQLCipher/keywordhash.h:137-151 | on every text the hash lookup is a linear search through the list, with 0x7F read as an underscore |
| KeywordHash.LookupRefinesLinearSearch | OCBase/Pods/WCDBOptimizedSQLCipher/keywordhash.h:280-284 | the code is that of a case-insensitive linear search, or TK_ID, if and only if the text is not CURRENT_DATE, CURRENT_TIME or CURRENT_TIMESTAMP with 0x7F for the underscore |
| KeywordHash.MendedIsMisread | OCBase/Pods/WCDBOptimizedSQLCipher/keywordhash.h:144-144 | putting underscores for 0x7F makes a keyword of those three texts only |
| KeywordHash.MisreadIsMended | OCBase/Pods/WCDBOptimizedSQLCipher/keywordhash.h:144-144 | and of each of those three it does |
| KeywordHash.DeleteByteIsMisread | OCBase/Pods/WCDBOptimizedSQLCipher/keywordhash.h:144-144 | CURRENT, 0x7F, DATE is taken for a keyword that it is not |
| KeywordHash.KeywordCode | OCBase/Pods/WCDBOptimizedSQLCipher/keywordhash.h:135-279 | both loops with their tables compute the lookup, and the code is written only on a match |
| KeywordHash.Sqlite3KeywordCode | OCBase/Pods/WCDBOptimizedSQLCipher/keywordhash.h:280-284 | returns the code of the linear search on the mended text, hence of the linear search itself exactly when nothing is misread; by name, the terminal of the keyword found, or ID |
| RefArgs.LastClauseDecides | OCBase/Pods/WCDBOptimizedSQLCipher/parse.c:2527-2581 | for any clauses in any order, the low byte is the number of the last ON DELETE action (0, 6, 7, 8 or 9), the second byte that of the last ON UPDATE action, NO ACTION by default, and no other bit is set |
| RefArgs.OneClause | OCBase/Pods/WCDBOptimizedSQLCipher/parse.c:2533-2556 | a clause overwrites the byte of its kind only; MATCH and ON INSERT overwrite nothing |
| RefArgs.PackedDetermines | OCBase/Pods/WCDBOptimizedSQLCipher/src/build.c:2693-2694 | two clause lists pack alike if and only if both actions agree, so the actions can be taken out again |

## Left out

- The entries of `yy_action`, `yy_lookahead` and the other action tables of parse.c:397-773: they are parameters under `Packs`, `Certified` and `Weighted`; that the shipped numbers satisfy these is not proved here.
- ParserEngine.Parser.Parse: the reduce actions are trees, so a reduce action that itself fails or aborts the parse is not modelled; the client loop `sqlite3RunParser` is not either.
- ParserEngine.Parser.Free: the release of the parser's own memory is not modelled.
- Tracing, the `YYERRORSYMBOL` branch, `yyGrowStack` and the high-water mark `yyhwm`: compiled out, or without effect on parsing.
- What each destructor frees (parse.c:1546-1663): a destructor call is an event with a symbol and a value.
- Reduce actions that only forward to other code (DROP, PRAGMA, ATTACH, triggers and so on): what they do is done by code outside the model.
- SqlMeaning.BuildKeepsMeaning: register variables (rule 159 with `#N`) and RAISE are not among the expressions, collation, affinity and the flags EP_Generic, EP_Collate and EP_InfixFunc do not enter the meaning, sqlite3PExpr and sqlite3ExprFunction are plain constructors with successful allocation, and a table or a SELECT is one unspecified relation on values; that the function behind LIKE is the operator with swapped arguments is assumed (`LikeIsCall`).
- SqlExpr.Build: register variables (rule 159 with `#N`) and RAISE (rules 247 and 248) are not among the expressions, and the SELECT inside an expression is a run of tokens.
- ReduceActions.ReduceInTable: sqlite3SrcListAppend and sqlite3SelectNew are reduced to the names and the argument list they keep; trees are values, so that two entries never share one.
- ExprParser.Parse: makes the shifts and reductions in the parser's order for a given parse, on a stack with enough room; how the parser decides on them is the matter of the modules named Parser; that `sqlite3RunParser` feeds no further token after an error is not modelled.
- SqlSpans.SpanEndsAtLastToken: token positions are integers in one text.
- SelectChain.ParseCompound: the WITH clause, `hasCompound` and the contents of each term are left out; allocation succeeds.
- Fishhook.Process.LoadImage: an image is its load commands, symbol tables and slot arrays; address arithmetic, `dladdr` (a flag of the image), dyld itself (it runs the callback for every image) and images that are unloaded are not modelled.
- Fishhook.EveryInterleaving: sections have memory of their own, cells are not slots, and nobody else writes slots: lazy binding and `rebind_symbols_image` are excluded.
- Rebinding.SavedOriginal: assumes that no two rebindings of the array share a cell.
- KeywordHash.KeywordCode: only the ASCII build; the tokenizer's test for which bytes may start or continue a name is left out.
- The Objective-C code of the application, the rest of SQLCipher, and the other pods.
