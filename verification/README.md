# Proofs about a plain-text accounting toolkit

The toolkit reads beancount ledgers, books their transactions against inventories of
lots, merges imported directives into existing files, fetches prices and serves an
editor. This project models the parts of it whose correctness is not obvious and proves
what they promise. Where the original changes things in place the model is a class or a
method over mutable state, proved equal to a function on values; the laws are proved
about those functions. Concurrent parts are state machines whose steps are the critical
sections and channel operations, and the laws hold in every state of every interleaving.

* **Booking** (`Amounts`, `Inventories`, `Costs`, `Bookings`, `Resolutions`,
  `Reductions`, `Reducers` and their laws): lot inventories, the direction of a posting,
  greedy reduction, realized gains, and the two passes over a transaction with
  interpolation, expansion of multi-lot reductions, dropping and rollback. Main results:
  `InventoryLaws.ReduceIsGreedy`, `Balance.InterpolationBalances`,
  `Interpolation.PassesConserve`, `Rollbacks.DroppingIsExact`,
  `Rebooking.RebookingIsAFixedPoint`, `Retracing.PlainBooksAreFixedPoints`,
  `Expansion.ExpansionConservesWeight`.
* **Syntax** (`Utf8`, `Syntax`, `Scanning`, `Scanners`, `Segments`, `Grammar`,
  `Expressions`, `FixedLines`, `Parsers`, `Parse`): the scanner, the recovering
  recursive-descent parser and the expression evaluator. Main results:
  `Parse.ParseSource` (total, lossless, and complete for directives of fixed shape),
  `ExpressionLaws.WrittenFormulaReadsBack`, `ExpressionLaws.ErrorFreeEvaluates`.
* **Merging** (`Merging`, `MergingLaws`, `Patches`, `Merge`, `MergedBytes`,
  `SharedLines`): inserting dated directives into a file. Main results:
  `Merge.MergeExistingFile`, `Merging.OffsetsFollowDates`,
  `MergingLaws.MergeKeepsOrderIff`, `MergedBytes.BytesKeepOrderIff`.
* **Quotes** (`Scheduling`, `Fetching`, `Fetch`): the level-synchronised fallback
  scheduler. Main results: `Fetching.RunsAreSafe`, `Fetching.InterleavingsAgree`,
  `Fetching.EveryRequestIsSettled`, and `Fetch.RunFetch`, which shows the loop to be a
  run of the state machine.
* **Sessions** (`Sessions`, `SessionSteps`, `SessionSafety`, `SessionRuns`,
  `SessionOutcomes`, `SessionGifts`, `SessionLaws`): the cached ledger with coalesced
  reloads and latest-wins subscribers. Main results:
  `SessionSafety.ChannelsAreUsedRight`, `SessionRuns.CacheIsFreshIff`,
  `SessionOutcomes.CoalescedCallersAgreeIff`, `SessionGifts.SubscriberHoldsNewestIff`,
  `SessionLaws.EveryContinuationEnds`.
* **Includes** (`IncludeGraph`, `IncludeLaws`, `IncludeCycles`, `Loaders`): loading a
  file with all it includes. Main results: `IncludeLaws.LoadsWhatIsReachable`,
  `IncludeCycles.CyclesAreReported`, `IncludeCycles.ReportMeansCycleIff`.
* **Duplicates** (`Matching`, `MatchingLaws`, `Dedup`): greedy matching of postings. Main
  results: `Matching.MultisetEqualIff`, `Matching.SubsetWithLeftoverIff`,
  `MatchingLaws.TransitiveIff`.
* **Positions** (`Positions`): byte offsets and editor positions. Main results:
  `Positions.OffsetsComeBack`, `Positions.EditReplacesExactly`.
* **Ledger** (`Ledgers`): the ordered ledger. Main result: `Ledgers.BulkIsOneByOne`.

Conventions: a number is a `real`, a date a count of days with 0 for the zero time, a
byte a character below 0x100. A `rest`, `meta` or `fields` component stands for what a
function copies or compares as a whole.

## Where the code parts from its documentation

The model follows the code.

* Reducing cash by more than there is takes what is there (pkg/inventory/inventory.go:234),
  while pkg/inventory/doc.go:54 promises an overdraft: `InventoryLaws.ReduceIsGreedy`
  states the amount taken, `InventoryLaws.CashOverdraftIsClamped` gives the inputs.
* Rolling a dropped reduction back adds a positive magnitude (pkg/inventory/reducer.go:631),
  so it restores long lots only: `Rollbacks.DroppingIsExact` is an equivalence, and
  `Rollbacks.DebtTurnsIntoCredit` a transaction on which it fails.
* A booked cost with an empty label matches labelled lots too (pkg/inventory/matcher.go:62):
  `CostLaws.BookedCostSelects` and `Retracing.LabelTwinsDoNotRetrace`.
* A booked cost without number provenance, date and label counts as empty, which the
  comment at pkg/inventory/booking.go:19-22 excludes: `BookingLaws.BookedCostIsEmptyIff`,
  with when it matters.
* A negative total cost weighs by its magnitude but divides with its sign, so weight and
  lot disagree (pkg/ast/cost.go:226-358): `CostLaws.WeightIsLotValueIff` and
  `CostLaws.NegativeTotalSplits`.
* Concurrent reload calls do not always receive the same result
  (pkg/session/session.go:125 and pkg/session/session.go:271):
  `SessionLaws.CoalescedCallersMayDiffer` is a run, `SessionOutcomes.CoalescedCallersAgreeIff`
  says when they do.
* A valid cache may miss an overlay write that fell into its load
  (pkg/session/session.go:314), and a subscriber may keep an older ledger
  (pkg/session/session.go:318): `SessionLaws.WriteDuringLoadLeavesStaleCache` and
  `SessionLaws.BroadcastsMayBeReordered`; exactly when, say `SessionRuns.CacheIsFreshIff`
  and `SessionGifts.SubscriberHoldsNewestIff`.
* A file included twice without any cycle is reported as a circular include
  (pkg/ast/load.go:136): `IncludeLaws.TwiceIsCalledCircular`. Every cycle is reported
  (`IncludeCycles.CyclesAreReported`), and reports tell cycles exactly when
  `IncludeCycles.ReportMeansCycleIff` says; which of them are errors and which warnings
  of a pattern that matched too much, says `IncludeCycles.KindsOfReports`.
* Exact matching is called an equivalence relation (pkg/distribute/dedup/equality.go:123)
  but is not always transitive when amounts are elided: `MatchingLaws.TransitiveIff`, with
  `MatchingLaws.ElidingIsNotTransitive` and `MatchingLaws.StatingIsNotTransitive`.
* An insert into a file in which two dates share a line can land behind a later date
  (pkg/distribute/merge/existing.go:196): `MergingLaws.MergeKeepsOrderIff` and
  `MergingLaws.SharedLineBreaksOrder`; `SharedLines.SharedLineExists` is such a file.
* Inside a file whose text before the insert does not end a line, the blank lines before
  it come one short (pkg/distribute/merge/existing.go:280): `Merge.LeadingPaddingIsExact`,
  with `Merge.IndentationComesShort`.

## Model

| member | source | states |
|---|---|---|
| `Inventories.Inventory.Add` | pkg/inventory/inventory.go:65-87 | The list afterwards is the list with the position merged into the first slot of the same commodity and lot, dropped when that slot becomes zero, or appended |
| `Inventories.Inventory.Reduce` | pkg/inventory/inventory.go:129-273 | The steps or the finding, and the positions afterwards, are those of the greedy reduction; a finding leaves the list as it was |
| `InventoryLaws.TidyListIsAMap` | pkg/inventory/inventory.go:65-93 | While keys are unique and no position is zero, the units of every key are those of its only position |
| `InventoryLaws.AddChangesOneKey` | pkg/inventory/inventory.go:65-87 | Adding changes the units of exactly one (commodity, lot) key, by exactly the units added |
| `InventoryLaws.AddKeepsTidy` | pkg/inventory/inventory.go:65-87 | Unique keys and nonzero positions survive an addition if and only if the position is nonzero or its key is present; otherwise a placeholder stays |
| `InventoryLaws.OrderIsUnique` | pkg/inventory/inventory.go:196-224 | Lot date and insertion order determine the booking order uniquely, whatever sort computes it |
| `InventoryLaws.LifoReversesFifo` | pkg/inventory/inventory.go:196-224 | LIFO consumes candidates in exactly the reverse of FIFO order |
| `InventoryLaws.ReduceIsGreedy` | pkg/inventory/inventory.go:129-273 | On success: the candidates are all and only the selected positions in booking order, every step but the last empties its position, magnitudes sum to the smaller of what was asked and what is there, to what was asked if a candidate carries a cost, and STRICT with several candidates empties them all |
| `InventoryLaws.CashOverdraftIsClamped` | pkg/inventory/inventory.go:174-234 | Taking more cash than is held succeeds under every reducing method, reports one step of what was held and leaves nothing |
| `InventoryLaws.ReduceRefusesExactly` | pkg/inventory/inventory.go:155-193 | Each finding is returned if and only if its condition holds, and no other finding exists |
| `InventoryLaws.ReduceKeepsTheUnselected` | pkg/inventory/inventory.go:226-273 | Positions that were not selected survive unchanged and in order |
| `InventoryLaws.ReduceKeepsTidy` | pkg/inventory/inventory.go:129-273 | A reduction keeps keys unique and nonzero, creates no key and turns no position round |
| `CostLaws.OpenedLotIsFound` | pkg/inventory/matcher.go:46-122 | The lot a cost opens is selected by the same cost on a posting of as many units, whatever its sign and price |
| `CostLaws.BookedCostSelects` | pkg/inventory/matcher.go:54-67 | A booked cost selects exactly the lots with its number and, where it has them, its currency, date and label: an empty label constrains nothing |
| `CostLaws.WeightIsLotValueIff` | pkg/inventory/weight.go:36-75 | The weight of an augmentation is its units times the per-unit number of the lot it opens, if and only if the total it writes, if any, is not negative |
| `CostLaws.NegativeTotalSplits` | pkg/ast/cost.go:226-358 | Ten units at a total of -50 weigh 50 and open a lot worth -50 |
| `CostLaws.WeightFollowsUnits` | pkg/inventory/weight.go:36-92 | Turning the units of a posting round turns its weight round and keeps its currency, for costs, prices and bare amounts |
| `Bookings.BookOne` | pkg/inventory/booking.go:163-186 | The inventory and the outcome afterwards are those of augmenting or reducing as the first position of the commodity decides |
| `Bookings.BookAugment` | pkg/inventory/booking.go:196-218 | The lot resolved from the cost is added, or the finding leaves the inventory as it was |
| `Bookings.BookReduce` | pkg/inventory/booking.go:250-276 | The lots the cost selects are consumed and the realized gains recorded |
| `Bookings.FillRealizedGain` | pkg/inventory/booking.go:287-330 | Every step carries the sale price per unit and its gain over the lot's cost |
| `BookingLaws.MatcherFollowsHint` | pkg/inventory/booking.go:101-141 | The matcher constrains the currency by which the direction was decided |
| `BookingLaws.MatcherFollowsHintIff` | pkg/inventory/booking.go:101-141 | For any posting: direction and matcher look at the same currency, unless a price names one while the cost, numbered or booked, is without currency, date and label |
| `BookingLaws.BookedCostIsEmptyIff` | pkg/inventory/booking.go:19-40 | A booked cost counts as empty if and only if it has no number provenance, date and label; the direction is then decided in a currency the matcher does not ask for if and only if the lot has none and the price has one |
| `BookingLaws.BookingKeepsTheInvariants` | pkg/inventory/booking.go:101-217 | Under the reducing methods booking a nonzero posting keeps keys unique, positions nonzero, and all lots of one commodity and cost currency of one sign |
| `BookingLaws.InventoriesStaySound` | pkg/inventory/booking.go:163-217 | The same after any sequence of bookings from the empty inventory |
| `BookingLaws.HintedReductionIsOpposed` | pkg/inventory/booking.go:101-141 | A reduction with a currency hint only ever meets cost lots of the opposite sign |
| `BookingLaws.GainsAreProceedsMinusBasis` | pkg/inventory/booking.go:287-330 | Realized gains sum to the sale proceeds minus the cost basis consumed, for per-unit and total prices, if and only if what is sold is held or sells for nothing; what is selected with a cost is always held |
| `Resolutions.PostingResolution.AddUnknown` | pkg/inventory/reducer.go:211-217 | An unknown posting is appended with its descriptor and nothing else changes |
| `Resolutions.PostingResolution.MarkForDrop` | pkg/inventory/reducer.go:223-228 | The currency joins the dropped groups |
| `Resolutions.PostingResolution.AddLotAugmentation` | pkg/inventory/reducer.go:250-260 | The posting with its booked cost and its record are appended side by side |
| `Resolutions.PostingResolution.AddCashAugmentation` | pkg/inventory/reducer.go:264-271 | The cash posting and its record are appended side by side |
| `Resolutions.PostingResolution.AddSingleLotReduction` | pkg/inventory/reducer.go:280-292 | The posting with the lot it consumed and its record are appended side by side |
| `Resolutions.PostingResolution.AddMultiLotReduction` | pkg/inventory/reducer.go:310-338 | One child posting and one record per step are appended in step order |
| `Resolutions.PostingResolution.Promote` | pkg/inventory/reducer.go:468-523 | An unknown is overwritten in place by its resolved form and its record appended |
| `Resolutions.PostingResolution.RecordUnknownFailed` | pkg/inventory/reducer.go:527-531 | A failed unknown is marked with the group it failed in |
| `Reducers.Reducer.PrepareForEdit` | pkg/inventory/reducer.go:898-910 | The first touch of an account records what it held; later touches do not |
| `Reducers.Reducer.BookExplicitPostings` | pkg/inventory/reducer.go:669-715 | The first pass does what its specification says, posting by posting, to state, findings and resolution |
| `Reducers.Reducer.GroupForResidual` | pkg/inventory/reducer.go:365-460 | Residual groups and free unknowns are those of the booked weights and the bids |
| `Reducers.Reducer.ResolveResidualGroups` | pkg/inventory/reducer.go:968-1021 | Every group is resolved, forwarded or failed in order |
| `Reducers.Reducer.ResolveFreeResiduals` | pkg/inventory/reducer.go:1028-1092 | A single free unknown absorbs the only residual left; anything else is a finding |
| `Reducers.Reducer.ReverseBooking` | pkg/inventory/reducer.go:614-638 | Undoing a record adds its inverse as the code computes it, short lots included |
| `Reducers.Reducer.FinalizeBooked` | pkg/inventory/reducer.go:558-606 | Dropped groups are undone and filtered out, survivors keep their order and get their source index |
| `Reducers.Reducer.VisitTxn` | pkg/inventory/reducer.go:655-786 | State, findings, postings, records and diff of a transaction are those of the two-pass specification; an error only for a broken invariant |
| `Reducers.Reducer.Diff` | pkg/inventory/reducer.go:927-937 | The diff shows the touched accounts, without those a rollback left as they were |
| `Reducers.Reducer.Walk` | pkg/inventory/reducer.go:105-148 | Walking a ledger resets the reducer, follows open directives and books the transactions in order, shows the visitor every visit that booked or touched something, and ends after the first one it refuses |
| `Reductions.StoppingCutsTheLedger` | pkg/inventory/reducer.go:105-148 | A walk its visitor stops is the walk nobody stops over a front part of the ledger, up to the first visit refused; the visitor accepted every one before |
| `Balance.InterpolationBalances` | pkg/inventory/reducer.go:365-460 | With an automatic posting booked as cash, deferred costs booked by augmentation and no finding, the output weights sum to zero in a currency if and only if the deferred posting that bid for it, if any, does not have its units on the side of the weight booked in that currency before interpolation |
| `Interpolation.PassesConserve` | pkg/inventory/reducer.go:655-786 | For any inventories and postings: after both passes the units under every account, commodity and lot are those before plus the effects of the booked records, and every record stands beside the posting it was booked from and the change it made |
| `Rollbacks.DroppingIsExact` | pkg/inventory/reducer.go:558-638 | Among lots and costs that have a currency, zero units and placeholders included: the units left under every key are those before plus the effects of the surviving records, if and only if no dropped reduction took from a short lot |
| `Rollbacks.DebtTurnsIntoCredit` | pkg/inventory/reducer.go:558-638 | A transaction whose dropped reduction took from a short position: it books nothing, and a debt of 5 is a credit of 1 afterwards |
| `Rollbacks.SourcesAreRight` | pkg/inventory/reducer.go:558-606 | For any inventories and postings every surviving record points at the rebuilt posting it was booked from: same account, same units |
| `Rollbacks.VisitKeepsTidy` | pkg/inventory/reducer.go:655-786 | A visit of nonzero postings leaves every inventory with unique keys and no zero position, whether it books, interpolates, drops or refuses |
| `Rollbacks.WalkKeepsTidy` | pkg/inventory/reducer.go:105-148 | The same over any ledger and any visitor |
| `Rollbacks.DiffIsComplete` | pkg/inventory/reducer.go:880-937 | An account outside the diff holds what it held, an account inside shows exactly before and after |
| `Rebooking.RebookingIsAFixedPoint` | pkg/inventory/reducer.go:230-338 | A transaction without unknowns and findings whose postings can be retraced books its own expanded output, from the same state, to the same postings, records, inventories and diff |
| `Retracing.ClearRetraces` | pkg/inventory/reducer.go:669-715 | From tidy, one-signed inventories of distinguishable lots every transaction whose reductions oppose their lots can be retraced |
| `Retracing.PlainBooksAreFixedPoints` | pkg/inventory/reducer.go:230-338 | From inventories of dated, unlabelled lots with one cost currency a commodity, postings that keep to it and a dated transaction, known before booking: without unknowns and findings the output books to the same postings, records, inventories and diff, and the inventories stay so |
| `Retracing.DistinguishableRetraces` | pkg/inventory/matcher.go:54-67 | The same for one posting: the lots must be dated and not differ in their label only |
| `Retracing.HintedPostingsRetrace` | pkg/inventory/booking.go:101-141 | Postings with a currency hint need no condition on the side of their lots |
| `Retracing.BookedCostFindsItsLot` | pkg/inventory/matcher.go:54-67 | A booked cost takes its units from its own lot if and only if the sign opposes the group, the lot comes first among those selected, and under STRICT it is the only one |
| `Retracing.LabelTwinsDoNotRetrace` | pkg/inventory/matcher.go:62-65 | Two lots that differ in their label only break the fixed point: the child for the unlabelled one is ambiguous |
| `FixedPoint.ChildrenRebook` | pkg/inventory/reducer.go:310-338 | Booking the children of a multi-lot reduction in order takes its steps one by one and leaves the same inventory |
| `Expansion.ExpansionConservesUnits` | pkg/inventory/reducer.go:310-338 | Child amounts sum to the parent amount in every commodity if and only if the selected positions hold that much, which they do when one carries a cost |
| `Expansion.ExpansionConservesWeight` | pkg/inventory/weight.go:44-54 | Child weights sum to the parent weight in every currency if and only if the total its cost wrote, if any, is not negative |
| `Utf8.DecodeRune` | pkg/syntax/scanner.go:143-235 | A rune has one to four bytes within the text; malformed bytes are read one at a time as the replacement character |
| `Scanners.Scanner.Scan` | pkg/syntax/scanner.go:21-38 | The next token, its trivia and the new offset are those of the specification |
| `Scanners.Scanner.ScanLeadingTrivia` | pkg/syntax/scanner.go:41-74 | Blank lines, comments and headings before a token |
| `Scanners.Scanner.ScanTrailingTrivia` | pkg/syntax/scanner.go:78-95 | Blanks and a comment after a token on its line |
| `Scanners.Scanner.ScanToken` | pkg/syntax/scanner.go:143-235 | Kind and end of the token at the offset |
| `Scanners.Scanner.ScanDateOrNumber` | pkg/syntax/scanner.go:244-262 | A date of the form the scanner accepts, or a number |
| `Scanners.Scanner.ScanNumber` | pkg/syntax/scanner.go:266-292 | A number with its separators and fraction |
| `Scanners.Scanner.ScanUpperWord` | pkg/syntax/scanner.go:415-466 | An account, a currency, an identifier or an unknown word |
| `Scanners.Scanner.ScanString` | pkg/syntax/scanner.go:503-522 | A string up to its closing quote or the end of the source |
| `Scanning.ScannedTextIsSource` | pkg/syntax/scanner.go:21-38 | A token with its trivia spells exactly the source it spans, at the position it reports |
| `Scanning.MunchIsMaximal` | pkg/syntax/scanner.go:469-498 | A run of a character class is as long as it can be |
| `ScanningLaws.NumberIsMaximal` | pkg/syntax/scanner.go:266-292 | No digit follows a number, nor a separator or point that would continue it |
| `ScanningLaws.LexemeSpells` | pkg/syntax/scanner.go:143-235 | The text of every token is one its kind may have: an account is a root and one or more components, each of runes that may start or continue one; a string has no unescaped quote inside, and one not closed by an unescaped quote ends with the source |
| `Syntax.AppendingAddsText` | pkg/syntax/node.go:21-98 | Appending a child appends exactly its tokens and its text to the node |
| `Segments.SegmentText` | pkg/syntax/node.go:86-98 | Tokens that span a stretch of the source spell it |
| `Segments.SegmentPositions` | pkg/syntax/parser.go:61-67 | Every token, a made-up one too, has its text at its position |
| `Segments.SegmentIsStream` | pkg/syntax/parser.go:50-67 | The tokens of a tree that reaches the end are all scanned tokens, once and in order, then only empty end tokens |
| `Parsers.Parser.Advance` | pkg/syntax/parser.go:50-54 | Consumes the token ahead, the end token again and again, and reads the next; the offset only grows |
| `Parsers.Parser.Expect` | pkg/syntax/parser.go:61-67 | Consumes a token of the kind, or reports an error and makes up an empty one where it stands |
| `Parsers.Parser.ParseFile` | pkg/syntax/parser.go:111-126 | Ends for every source; the tokens of the file node span all of it, the end token included, without errors every node has the shape of its kind, and a file that reads as directives of fixed shape is read without an error to those |
| `Parsers.Parser.ParseTopLevel` | pkg/syntax/parser.go:128-150 | One directive over at least one token, spanning exactly what was consumed, so that the top loop ends |
| `Parsers.Parser.ParseMetadata` | pkg/syntax/parser.go:168-180 | The indented metadata lines become the last children; none is left ahead; no error is reported if and only if each line is a key, a colon and at most one value, and then the children are those lines |
| `Parsers.Parser.TryParseMetadataLine` | pkg/syntax/parser.go:185-219 | The node has its kind and spans exactly what was consumed, at least one token; unless an error was reported it has the shape the grammar gives a metadata line: key, colon, at most one value |
| `Parsers.Parser.ParseOption` | pkg/syntax/parser.go:221-232 | The node has its kind and spans exactly what was consumed, at least one token; unless an error was reported it has the shape the grammar gives an option: two strings, and an error is reported if and only if an operand or a metadata line is wrong |
| `Parsers.Parser.ParsePlugin` | pkg/syntax/parser.go:234-247 | The node has its kind and spans exactly what was consumed, at least one token; unless an error was reported it has the shape the grammar gives a plugin: one or two strings |
| `Parsers.Parser.ParseInclude` | pkg/syntax/parser.go:249-258 | The node has its kind and spans exactly what was consumed, at least one token; unless an error was reported it has the shape the grammar gives an include: one string, and an error is reported if and only if an operand or a metadata line is wrong |
| `Parsers.Parser.ParseTagStack` | pkg/syntax/parser.go:260-278 | The node has its kind and spans exactly what was consumed, at least one token; unless an error was reported it has the shape the grammar gives `pushtag` and `poptag`: one tag, and an error is reported if and only if an operand or a metadata line is wrong |
| `Parsers.Parser.ParseDatedDirective` | pkg/syntax/parser.go:280-319 | The result is a directive that spans the date and all that follows it; unknown keywords become an unrecognized line |
| `Parsers.Parser.ParseTrailingTagsLinks` | pkg/syntax/parser.go:325-337 | All tags and links on the rest of the line become children; none is left ahead |
| `Parsers.Parser.ParseTransaction` | pkg/syntax/parser.go:341-370 | The node has its kind and spans exactly what was consumed, at least one token; unless an error was reported it has the shape the grammar gives a transaction: flag, strings, tags and links, metadata, postings |
| `Parsers.Parser.ParsePostingsAndMetadata` | pkg/syntax/parser.go:375-397 | The indented lines are consumed to their end; without errors a metadata line is a child of the transaction only before its first posting and of a posting after it |
| `Parsers.Parser.ParsePosting` | pkg/syntax/parser.go:400-429 | The node has its kind and spans exactly what was consumed, at least one token; unless an error was reported it has the shape the grammar gives a posting: flag, account, amount, cost, price, metadata |
| `Parsers.Parser.ParseCostSpec` | pkg/syntax/parser.go:434-454 | The node has its kind and spans exactly what was consumed, at least one token; unless an error was reported it has the shape the grammar gives a cost: matching braces around its elements |
| `Parsers.Parser.ParseCostContents` | pkg/syntax/parser.go:461-535 | The elements up to the closing brace become children, in the order the brace style allows |
| `Parsers.Parser.ParseCostElement` | pkg/syntax/parser.go:541-556 | One further element becomes a child, or is consumed with an error |
| `Parsers.Parser.ParseAmountOptionalCurrency` | pkg/syntax/parser.go:563-571 | The node has its kind and spans exactly what was consumed, at least one token; unless an error was reported it has the shape the grammar gives an amount that may lack its currency |
| `Parsers.Parser.ParsePriceAnnotation` | pkg/syntax/parser.go:574-580 | The node has its kind and spans exactly what was consumed, at least one token; unless an error was reported it has the shape the grammar gives a price: one or two at-signs and an amount |
| `Parsers.Parser.ParseDatedUnrecognized` | pkg/syntax/parser.go:582-590 | The rest of the line is kept in the node, without an error of its own |
| `Parsers.Parser.ParseOpen` | pkg/syntax/parser.go:592-621 | The node has its kind and spans exactly what was consumed, at least one token; unless an error was reported it has the shape the grammar gives an open: account, currencies, booking method |
| `Parsers.Parser.ParseBalance` | pkg/syntax/parser.go:623-635 | The node has its kind and spans exactly what was consumed, at least one token; unless an error was reported it has the shape the grammar gives a balance |
| `Parsers.Parser.ParseBalanceAmount` | pkg/syntax/parser.go:643-666 | The node has its kind and spans exactly what was consumed, at least one token; unless an error was reported it has the shape the grammar gives a balance amount: expression, tolerance, currency; strays are kept with an error |
| `Parsers.Parser.ParseTwoOperands` | pkg/syntax/parser.go:668-762 | The node has its kind and spans exactly what was consumed, at least one token; unless an error was reported it has the shape the grammar gives pad, event and query: two operands, and an error is reported if and only if an operand or a metadata line is wrong |
| `Parsers.Parser.ParseOneOperand` | pkg/syntax/parser.go:682-704 | The node has its kind and spans exactly what was consumed, at least one token; unless an error was reported it has the shape the grammar gives close and commodity: one operand, and an error is reported if and only if an operand or a metadata line is wrong |
| `Parsers.Parser.ParseDescribed` | pkg/syntax/parser.go:706-734 | The node has its kind and spans exactly what was consumed, at least one token; unless an error was reported it has the shape the grammar gives note and document: account, string, tags and links |
| `Parsers.Parser.ParsePrice` | pkg/syntax/parser.go:764-775 | The node has its kind and spans exactly what was consumed, at least one token; unless an error was reported it has the shape the grammar gives a price directive: currency and amount |
| `Parsers.Parser.ParseCustom` | pkg/syntax/parser.go:777-800 | The node has its kind and spans exactly what was consumed, at least one token; unless an error was reported it has the shape the grammar gives a custom directive: a type and any values |
| `Parsers.Parser.ParseAmount` | pkg/syntax/parser.go:802-809 | The node has its kind and spans exactly what was consumed, at least one token; unless an error was reported it has the shape the grammar gives an amount; without a new error its currency is there |
| `Parsers.Parser.ParseExpr` | pkg/syntax/parser.go:812-826 | Tree, remaining tokens and errors are those the grammar function for sums reads from the tokens ahead; the recursion ends even when an error consumes the end token |
| `Parsers.Parser.ParseTerm` | pkg/syntax/parser.go:829-843 | The same for products |
| `Parsers.Parser.ParseFactor` | pkg/syntax/parser.go:846-876 | The same for numbers, signs and parentheses |
| `Parsers.Parser.ParseUnrecognizedLine` | pkg/syntax/parser.go:878-888 | At least one token and all up to the next line start is kept, without an error of its own |
| `Parse.ParseSource` | pkg/syntax/parser.go:10-17 | For every source: parsing ends, the text of the tree is the source byte for byte, every token has its text at its position, every scanned token is in the tree exactly once and in order, without errors every node has the shape of its kind, and well written directives of fixed shape, with metadata, parse without an error to exactly the nodes they spell |
| `FixedLines.DirectivesReadBack` | pkg/syntax/parser.go:128-319 | Option, include, pushtag, poptag, close, commodity, pad, event and query directives with any metadata lines, written one after the other, on lines of their own or not, read back as the nodes they spell, in order |
| `FixedLines.DirectiveReadsBack` | pkg/syntax/parser.go:168-278 | The same for one directive before anything that continues neither its metadata lines nor the last of them |
| `Parse.ParseAmountExpression` | pkg/ast/balance_expr.go:29-55 | The amount node holds a prefix of the text; without errors it is well formed and its expression evaluates unless a number or a division fails |
| `ExpressionLaws.WrittenFormulaReadsBack` | pkg/syntax/parser.go:812-876 | Any formula written with the parentheses it needs parses without errors, up to what follows it, to a tree with the formula's value |
| `ExpressionLaws.ExprReads` | pkg/syntax/parser.go:812-876 | Any choice of tokens for an expression tree parses back to that tree |
| `ExpressionLaws.ErrorFreeEvaluates` | pkg/ast/balance_expr.go:178-270 | Evaluating an error-free tree never fails on its structure: only on the text of a number or a division by zero |
| `ExpressionLaws.SoundHasFourShapes` | pkg/ast/balance_expr.go:178-270 | Every error-free expression node has one of the evaluator's four shapes |
| `ExpressionLaws.OperationKeepsValue` | pkg/ast/balance_expr.go:178-270 | An operation has the value of its operator on its operands, in parentheses or not |
| `Merging.WeakerIsFoundEarlier` | pkg/distribute/merge/existing.go:236-267 | Of two binary searches over the same list, ordered or not, the one whose predicate is implied by the other's stops no later |
| `Merging.SearchFindsTheFirst` | pkg/distribute/merge/existing.go:236-267 | On an ordered list the search finds the first index |
| `Merging.OffsetsFollowDates` | pkg/distribute/merge/existing.go:236-267 | Inserts in plan order get nondecreasing offsets, in any file |
| `Merging.StableSortLaws` | pkg/distribute/merge/existing.go:79-99 | Sorting the inserts permutes them, orders their dates and keeps equal dates as they came |
| `MergingLaws.MergeKeepsOrder` | pkg/distribute/merge/existing.go:79-128 | A file in plan order in which only directives of one date share a line reads, after the merge, as the stable merge, existing before inserted on equal dates; the result is in order |
| `MergingLaws.MergeKeepsOrderIff` | pkg/distribute/merge/existing.go:79-128 | For a file in plan order: whatever is inserted the result is in order, and is the stable merge, if and only if only directives of one date share a line or the plan appends |
| `MergingLaws.SharedLineBreaksOrder` | pkg/distribute/merge/existing.go:196-205 | Two dates on one line break the order: an insert that belongs between them goes after both |
| `SharedLines.SharedLineExists` | pkg/distribute/merge/existing.go:144-205 | A file of 51 bytes with two close directives on its only line, from the scanner to the index: both entries end at the end of the line, so the file is in order and an insert can break it |
| `Patches.ErasingRestores` | pkg/distribute/merge/patches.go:127-147 | Cutting the inserted texts out of the result gives every original byte back |
| `Patches.PatchStands` | pkg/distribute/merge/patches.go:127-147 | Every inserted text stands whole at its offset, moved only by the texts before it |
| `Patches.BytesStand` | pkg/distribute/merge/patches.go:127-147 | Every byte of the file stands in the result, moved by exactly the texts that go to its offset or before |
| `Patches.TextsStandBetween` | pkg/distribute/merge/patches.go:127-147 | In the result an inserted text stands before a byte of the file if and only if its offset is not after that byte's |
| `MergedBytes.EverythingStands` | pkg/distribute/merge/patches.go:104-147 | In the result every inserted text, whole and with several at one offset included, and the first byte of every directive the file had stand at the offsets computed for them |
| `MergedBytes.BytesKeepOrderIff` | pkg/distribute/merge/existing.go:79-128 | For the index of a file in plan order: whatever is inserted, the texts of the inserts, each whole, and the first bytes of the old directives stand in the bytes of the result in the order of their dates, if and only if only directives of one date share a line or the plan appends |
| `Patches.ApplyPatches` | pkg/distribute/merge/patches.go:127-147 | The result is the original with each patch spliced in at its offset |
| `Patches.CountTrailingBlanks` | pkg/distribute/merge/patches.go:48-81 | Line terminators at the end, less the one that ends the last line |
| `Patches.CountLeadingBlanks` | pkg/distribute/merge/patches.go:87-104 | Line terminators at the start |
| `Merge.LeadingPaddingIsExact` | pkg/distribute/merge/existing.go:280-292 | For every offset: the text put before an insert leaves exactly the larger of the wanted and the present number of blank lines if and only if, at the start of the file, none is missing; inside, none is missing or the text before ends a line; at the end, always; the cases after a bare carriage return are given exactly too |
| `Merge.IndentationComesShort` | pkg/distribute/merge/existing.go:280-292 | Before an indented first directive an earlier insert gets no blank line where one is wanted: its offset, the newline put there and the count are given |
| `Merge.TrailingPaddingIsExact` | pkg/distribute/merge/existing.go:299-305 | The same after an insert, if and only if it is not at the end of the file or nothing is missing |
| `Merge.AdvancePastTerminator` | pkg/distribute/merge/existing.go:196-205 | The offset past the line |
| `Merge.IndexDirectives` | pkg/distribute/merge/existing.go:134-174 | Date and span of every dated directive, or the first failure |
| `Merge.IndexIsWellPlaced` | pkg/distribute/merge/existing.go:134-205 | In every parsed file the index is in text order and within the file |
| `Merge.GroupInserts` | pkg/distribute/merge/existing.go:100-128 | Consecutive inserts with one offset form one group, none lost or moved |
| `Merge.MergeInto` | pkg/distribute/merge/existing.go:79-128 | Every insert is rendered once, in stable plan order, at its target offset, and erasing the texts restores the original |
| `Merge.MergeExistingFile` | pkg/distribute/merge/existing.go:60-140 | Refused if and only if the file does not parse without errors or a date in it cannot be read; else the result is the file with the inserts spliced in, in stable plan order, at the offsets that the index of the parsed file gives, and erasing them restores the file; the file is parsed as `Parse.ParseSource` says |
| `Scheduling.PendingUnitsAreOnLevel` | pkg/quote/scheduler.go:259-311 | At level k a unit is done or has come exactly k sources down its chain, and a successful one stopped earlier |
| `Scheduling.UnitsStopAtTheFirstHit` | pkg/quote/scheduler.go:259-311 | A unit is pending at level k exactly while no earlier batch of its chain priced it and the chain goes on; it succeeds at the first batch that did |
| `Scheduling.ChainsEnd` | pkg/quote/scheduler.go:259-277 | Nothing is pending once the longest chain is exhausted |
| `Scheduling.SourcesLaws` | pkg/quote/scheduler.go:260-272 | The groups of a level are exactly the sources pending units fall back to, each once |
| `Fetching.RunsAreSafe` | pkg/quote/scheduler.go:214-300 | In every state of every interleaving: calls in flight never exceed the slots, no source is called twice at a level, every pending unit is at the depth of the level |
| `Fetching.InterleavingsAgree` | pkg/quote/scheduler.go:238-322 | All runs that end agree on the units and on the multisets of prices and diagnostics |
| `Fetching.EveryRequestIsSettled` | pkg/quote/scheduler.go:238-322 | At the end every request succeeded at the first source of its chain whose batch priced it, or none did |
| `Fetching.RunsAreBounded` | pkg/quote/scheduler.go:257-316 | The length of every run is bounded by the longest chain and the number of requests |
| `Fetching.LevelsAreBounded` | pkg/quote/scheduler.go:257-316 | No run enters more levels than the longest chain has sources |
| `Fetching.NoDeadlock` | pkg/quote/scheduler.go:214-231 | No reachable state is stuck before the end, whatever the limit was set to |
| `Fetch.StartLevel` | pkg/quote/scheduler.go:258-272 | Groups are built for exactly the pending units; exhausted ones are done |
| `Fetch.Attribute` | pkg/quote/scheduler.go:172-181 | Exactly the units of the group that a price names are marked |
| `Fetch.DispatchSource` | pkg/quote/scheduler.go:334-418 | Prices, diagnostics and marks of one batched call, an unknown or unfit source, or a failure |
| `Fetch.EndLevel` | pkg/quote/scheduler.go:296-309 | Units are done or fall back by one |
| `Fetch.RunFetch` | pkg/quote/scheduler.go:238-322 | The loop's outcome is that of an ended run of the state machine; failure exactly without prices |
| `Sessions.Subscriber.Send` | pkg/session/session.go:56-68 | The latest ledger replaces an unread one; after the close nothing happens |
| `Sessions.Session.constructor` | pkg/session/session.go:94-111 | A session starts with a valid cache of its first load |
| `Sessions.Session.SetOverlay` | pkg/session/session.go:142-154 | Stores and invalidates; refused for relative paths and after the close |
| `Sessions.Session.ClearOverlay` | pkg/session/session.go:159-170 | Removes and invalidates only what is there |
| `Sessions.Session.Begin` | pkg/session/session.go:273-310 | First critical section: refuse, serve the cache, wait, or load a snapshot |
| `Sessions.Session.Finish` | pkg/session/session.go:312-321 | Second critical section: the result is recorded, the cache filled unless failed or closed |
| `Sessions.Session.Subscribe` | pkg/session/session.go:212-220 | The subscription is listed, or closed already |
| `Sessions.Session.Cancel` | pkg/session/session.go:221-236 | The subscription is taken off the list and closed |
| `Sessions.Session.Broadcast` | pkg/session/session.go:242-249 | Every open subscription holds the ledger |
| `Sessions.Session.Close` | pkg/session/session.go:256-266 | The list is emptied and every listed subscription closed |
| `Sessions.RemovedTakesOut` | pkg/session/session.go:221-232 | Removal by swapping with the last takes out exactly the one subscription |
| `SessionSafety.AtMostOneLoad` | pkg/session/session.go:273-321 | At most one load is in flight in every state of every interleaving |
| `SessionSafety.WaitersAreServed` | pkg/session/session.go:283-296 | A waiting caller waits on a channel that is closed or that a thread carrying a reload through owns; nobody returns without an outcome |
| `SessionSafety.ChannelsAreUsedRight` | pkg/session/session.go:56-78 | A send finds its channel open and empty, so it neither blocks nor panics; every channel is closed once |
| `SessionSafety.NoSubscriberIsSkipped` | pkg/session/session.go:242-249 | When a reload reports its end, every subscription listed at its broadcast was sent to or is closed |
| `SessionSafety.CancelledIsUnlisted` | pkg/session/session.go:221-236 | A subscription being closed is on no list, so no later broadcast starts with it |
| `SessionSafety.ClosedIsFrozen` | pkg/session/session.go:256-321 | After the close cache, overlay and list never change, late loads included |
| `SessionRuns.FreshUnlessWritten` | pkg/session/session.go:299-316 | The cache shows the current overlay when no write happened since its load's snapshot |
| `SessionRuns.CacheIsFreshIff` | pkg/session/session.go:273-317 | In every state of every run a valid cache is the ledger of one load, found in the run, and fresh if and only if the overlay was the same when that load began and when it published |
| `SessionRuns.QuietRunsAreFresh` | pkg/session/session.go:142-170 | If no write falls into a load, a valid cache is always fresh |
| `SessionLaws.WriteDuringLoadLeavesStaleCache` | pkg/session/session.go:314-317 | A run in which the cache ends valid and stale |
| `SessionOutcomes.CoalescedCallersAgreeIff` | pkg/session/session.go:283-296 | In every run a waiter returns what the reload that published last gave, so it agrees with the load it waited for if and only if those two outcomes are equal, and always when no later reload has published |
| `SessionOutcomes.LoaderReturnsItsOutcome` | pkg/session/session.go:312-325 | The caller that ran a load returns what that load gave |
| `SessionOutcomes.LatestIsLast` | pkg/session/session.go:312-316 | What the session holds as its latest outcome is that of the last reload of the run that published |
| `SessionLaws.CoalescedCallersMayDiffer` | pkg/session/session.go:283-296 | A run in which two callers that share a load return different outcomes |
| `SessionLaws.BroadcastsMayBeReordered` | pkg/session/session.go:318-321 | A run in which a subscriber ends with an older ledger than the cache |
| `SessionGifts.SubscriberHoldsNewestIff` | pkg/session/session.go:318-321 | When no broadcast is under way, an open subscription listed at the broadcast of what fills the cache was last given the cache if and only if the reload that gave it published the same outcome; with no two loads alike, if and only if it was that reload |
| `SessionGifts.NewestWasBroadcast` | pkg/session/session.go:318-321 | When no broadcast is under way, the reload that filled the cache has begun its own |
| `SessionGifts.SerialBroadcastsDeliverNewest` | pkg/session/session.go:242-249 | If broadcasts never overlap, every such subscription was last given the cache |
| `SessionLaws.NoDeadlock` | pkg/session/session.go:273-325 | After any run from the start in which a thread has begun and not ended, some thread can go on |
| `SessionLaws.StepsComeToAnEnd` | pkg/session/session.go:242-325 | Every step of a thread that goes on lowers a measure of its own and leaves those of the others |
| `SessionLaws.EveryContinuationEnds` | pkg/session/session.go:242-325 | Every run continued without new callers is at most as long as the sum of the measures, and can go no further if and only if every thread has ended |
| `Loaders.Loader.LoadFile` | pkg/ast/load.go:133-152 | The loader's state afterwards is that of the walk from the file |
| `Loaders.Loader.LoadItems` | pkg/ast/load.go:158-171 | The same for the directives of a file, in order |
| `Loaders.Loader.HandleInclude` | pkg/ast/load.go:173-233 | The same for one include, plain, glob or failing |
| `Loaders.Load` | pkg/ast/load.go:47-62 | The files loaded are exactly the readable ones reachable from the root, each once; every other directive is kept as often as they hold it; a file is reported exactly when asked for again |
| `IncludeLaws.LoadsWhatIsReachable` | pkg/ast/load.go:133-233 | In every finite include graph, cyclic or not: loaded if and only if readable and reachable, and once |
| `IncludeLaws.EveryDirectiveIsKept` | pkg/ast/load.go:158-171 | Each directive is kept exactly as often as the loaded files hold it |
| `IncludeLaws.AskedAgainIsReported` | pkg/ast/load.go:133-152 | A file is reported as included again exactly one time less than it is asked for |
| `IncludeLaws.TwiceIsCalledCircular` | pkg/ast/load.go:134-139 | A file included twice is reported as a circular include without any cycle |
| `IncludeCycles.ReportedIff` | pkg/ast/load.go:133-233 | A file is reported as included again if and only if reachable files ask for it twice, or once when it is the file loaded |
| `IncludeCycles.CyclesAreReported` | pkg/ast/load.go:133-233 | Every cycle that can be reached is reported on one of its files |
| `IncludeCycles.ReportMeansCycleIff` | pkg/ast/load.go:133-233 | Some report if and only if some reachable cycle, if and only if a file asked for again implies a reachable cycle, which can be checked on the files beforehand |
| `IncludeCycles.KindsOfReports` | pkg/ast/load.go:133-233 | Which reports are circular-include errors and which over-matched warnings: requests by name give errors, matches of patterns warnings, all but the request that came first |
| `IncludeCycles.CyclesAreErrors` | pkg/ast/load.go:133-139 | A reachable cycle whose files no pattern matches is a circular-include error on one of them |
| `Matching.BothAreEquivalences` | pkg/distribute/dedup/equality.go:223-243 | Both posting comparisons are equivalences that keep to the account |
| `Matching.MultisetEqualIff` | pkg/distribute/dedup/equality.go:311-330 | The greedy search succeeds if and only if a one-to-one pairing exists |
| `Matching.SubsetWithLeftoverIff` | pkg/distribute/dedup/equality.go:337-366 | The search with a leftover succeeds if and only if some pairing leaves a posting with the account |
| `MatchingLaws.MatchesItselfIff` | pkg/distribute/dedup/equality.go:267-292 | A posting list matches itself if and only if at most one amount is elided |
| `MatchingLaws.MatchingIsSymmetric` | pkg/distribute/dedup/equality.go:267-292 | Matching does not depend on which list comes first |
| `MatchingLaws.MatchingIgnoresOrder` | pkg/distribute/dedup/equality.go:267-292 | Nor on the order of the postings on either side |
| `MatchingLaws.MatchingIsTransitive` | pkg/distribute/dedup/equality.go:267-292 | Matching is transitive unless the ends elide equally many amounts and the middle another number |
| `MatchingLaws.TransitiveIff` | pkg/distribute/dedup/equality.go:114-127 | Lists that elide x, y and z amounts chain on all inputs if and only if not x = z and x differs from y |
| `MatchingLaws.ElidingIsNotTransitive` | pkg/distribute/dedup/equality.go:114-127 | Three lists on which exact matching is not transitive: the middle elides an amount |
| `MatchingLaws.StatingIsNotTransitive` | pkg/distribute/dedup/equality.go:114-127 | Three lists on which it is not transitive because the ends elide different amounts of the middle |
| `Dedup.MultisetSearch` | pkg/distribute/dedup/equality.go:311-330 | The loop succeeds if and only if a one-to-one pairing exists |
| `Dedup.LeftoverSearch` | pkg/distribute/dedup/equality.go:337-366 | The loop succeeds if and only if a pairing leaves a posting with the account |
| `Dedup.PartitionElided` | pkg/distribute/dedup/equality.go:296-305 | Postings with amounts and the accounts of those without, in order |
| `Dedup.PostingsMatch` | pkg/distribute/dedup/equality.go:267-292 | The verdict on two posting lists |
| `Dedup.IdCompare` | pkg/distribute/dedup/equality.go:158-177 | Conflict if some shared key differs, equal if some key is shared and none differs |
| `Dedup.VerdictIsSymmetric` | pkg/distribute/dedup/equality.go:127-141 | The kind of match does not depend on which directive comes first |
| `Dedup.DuplicatesItselfIff` | pkg/distribute/dedup/equality.go:127-141 | A directive matches itself if and only if it has an id key, is no transaction or elides at most one amount |
| `Positions.ComputeLineOffsets` | cmd/beancount-lsp/position.go:89-107 | The table holds exactly the line starts after LF, CR LF and bare CR, in strict order |
| `Positions.ByteOffsetToLsp` | cmd/beancount-lsp/position.go:26-51 | The last line that starts at or before the clamped offset, and the units up to it |
| `Positions.LspPositionToByte` | cmd/beancount-lsp/position.go:56-82 | The last rune boundary of the line that the characters suffice for |
| `Positions.OffsetsComeBack` | cmd/beancount-lsp/position.go:26-82 | Offset to position and back is the next rune boundary, so the identity if and only if the offset is one |
| `Positions.PositionsComeBack` | cmd/beancount-lsp/position.go:26-82 | A position of a boundary comes back as itself |
| `Positions.PositionsLandOnBoundaries` | cmd/beancount-lsp/position.go:56-82 | Every position, in range or not, lands on a rune boundary, never inside a surrogate pair |
| `Positions.ToByteIsMonotone` | cmd/beancount-lsp/position.go:56-82 | Later positions never map to earlier offsets |
| `Positions.ApplyChange` | cmd/beancount-lsp/docsync.go:194-209 | The new buffer is the text before the range, the new text and the text after it |
| `Positions.ApplyChanges` | cmd/beancount-lsp/docsync.go:180-186 | The changes are applied in order, each to the result of the one before |
| `Positions.EditReplacesExactly` | cmd/beancount-lsp/docsync.go:194-209 | An edit between the positions of two boundaries replaces exactly the bytes between them |
| `Positions.RangesMayBeReversed` | cmd/beancount-lsp/docsync.go:201-203 | A reversed range means the same, and a forward one is never swapped |
| `Ledgers.KeysAreTotallyOrdered` | pkg/ast/order.go:48-62 | The comparison is antisymmetric, transitive, and zero only for equal keys |
| `Ledgers.BulkIsOneByOne` | pkg/ast/ledger.go:136-152 | Adding in bulk, by whatever sort, gives what inserting one by one gives |
| `Ledgers.TiesKeepTheirOrder` | pkg/ast/ledger.go:100-123 | Directives that agree on date, kind, file and offset stand in arrival order |
| `Ledgers.PutLaws` | pkg/ast/ledger.go:112-123 | An insertion keeps the strict order and adds exactly the one entry |
| `Ledgers.Ledger.Insert` | pkg/ast/ledger.go:112-123 | The ledger stays strictly sorted with unique numbers |
| `Ledgers.Ledger.InsertAll` | pkg/ast/ledger.go:136-152 | The same, equal to inserting one by one |
| `Ledgers.Ledger.ReplaceAll` | pkg/ast/ledger.go:162-165 | The same from an empty list, numbers going on |

## Left out

- Retracing.ClearRetraces: gives a condition under which rebooking is a fixed point; the exact one is stated per lot, by `Retracing.BookedCostFindsItsLot`.
- Retracing.PlainBooksAreFixedPoints: likewise a sufficient condition, on what is known before booking.
- Parse.ParseSource: that grammatical tokens parse without errors is proved for expressions and for directives of fixed shape, not for plugin, open, balance, note, document, price, custom and transactions.
- Parse.ParseAmountExpression: says when evaluation cannot fail on structure; the amount it assembles and the classes of its findings (pkg/ast/balance_expr.go:123-165) are not modelled.
- Fetch.RunFetch: leaves out cancellation, which ends the loop between levels (pkg/quote/scheduler.go:313), because what is fetched then depends on the clock.
- Scheduling.UnitsAt: what a source answers is a function of source, level and batch, so a run sees no cancellation, clock or outside change.
- Decimal rounding, exponents and negative zero: every number is exact.
- Spans, messages and severities of findings, and the metadata that booking copies.
- `Run`, `Final`, `Inspect`, and the inventory's `Get`, `Clone`, `Equal` and iterators: easy.
- What state a broken invariant leaves behind: the original halts the ledger there.
- Sharing between the given and the returned postings (pkg/inventory/reducer.go:155 and pkg/inventory/reducer.go:783): postings are values, so nothing is said about the input staying unchanged.
- Syntax nodes are values too: a posting that gains a metadata line is replaced in its transaction rather than changed through a pointer.
- The Unicode tables of account components are two arbitrary predicates, the reading of a number's text and of a date's text arbitrary functions.
- Library sorts and binary searches are modelled by their documented behaviour; stability and the halving search are written out.
- Rendering of inserted directives (their text is given), merging into a new file, file input and output.
- The planners' choice of source method, observers and events: they are part of what a source answers. A panic is a failure.
- The marks of one batch are one step of the state machine: batches of one level share no unit.
- In the session, a cancelled context is a step by which a waiter gives up or a load fails; the loader is a function of the overlay and the disk. Subscribing after the close gives a closed channel that no step can reach.
- `Load` and `LoadReader`, which start from a text under a virtual name, overlay keys, options of the finished ledger; path resolution and glob expansion are given functions, and the readable files are finitely many.
- Free-text normalisation, the comparison of directives other than transactions, and the index over a destination: equality of normalised values stands for them. Dates lie whole days apart.
- The 32-bit counters of editor positions: a position's character count never exceeds the length of the text, so they cannot wrap below 4 GiB. Rune columns (`astPositionToLSP`) and the document store.
- The 64-bit running number of the ledger, its iterator and `At`.
- Lowering, options, formatter, printer, query engine, validation plugins, display width and the command-line programs.
