# Flox venue: verified models

Dafny models of the trading venue's order book, matcher, market-data protocol, money path and four smaller
state machines, with proofs of what they promise. Classes that change fields and arrays in place are
modelled as classes; each method is proved against a function of the old state, and the theorems are about
those functions and about whole runs.

* **The two books.** `OrderBook` is the abstract book: per side, price levels best first, a FIFO queue each.
  `MatchingBook` is the reference implementation over maps of lists. `Ladder` is the tick-indexed book: a
  node pool with intrusive lists and a free list (`NodeLists`), occupancy bitmaps (`Bitmap`), cached best
  cursors and totals (`LadderView`, `LadderSides`, `LadderPrices`), and an open-addressing id table with
  backward-shift deletion (`IdIndex`, `IndexHistory`), put together in `LadderState` and `LadderCount`.
  `Differential` drives both books through any run of operations; `LadderLimits` says exactly where the
  ladder's aggregate answers differ, and `Peaks` that no iceberg ever shows more than its peak.
* **The matcher.** `Aggressor` and `ProRataSweep` are the two sweeps, `Allocation` the split of one level,
  `AllOrNone` and `ProRataPlan` the all-or-none plan, `Audit` an independent auditor who is given only the
  book before and the event tape, `Crossing` one whole crossing and runs of them, `ProRataResidual` what is
  left of a pro-rata order, `Endings` why an order ended, `Icebergs` what becomes of displayed sizes, `FillRisk` and `FillRiskProRata` the engine's position limits over a crossing with
  `FillRiskPlan` and `FillRiskSingles` for orders with an all-or-none plan, `CrossingLimits` the books on which
  stronger claims fail. `Matcher` is the class that does it in place on a
  `MatchingBook`.
* **Market data.** `MarketData` is the publisher (visible orders, depth, sequence, ring, atomic snapshot),
  `PublicFeed` an engine that tells it what the matcher does and a consumer who sees the displayed book,
  `MdDistribution` a subscriber session whose hand-over races with publishing, `GapDetector` the consumer's
  sequencer over a lossy network.
* **Money.** `Ledger`, and `CrossMargin` over it: fills, funding, marks, liquidation, collateral conversion
  and auto-deleveraging.
* **Others.** `Journal` (record framing and the loader), `FixResend` (FIX 4.4 resend service and inbound
  gate), `RateLimit` (sliding windows), `DepthBook` (windowed depth arrays), `DecimalWire` (decimal text).

Raw prices, quantities and amounts are mathematical integers; division that truncates toward zero is
`Arith.TruncDiv`. The id hash, the checksum, the engine's risk hooks and the encoders are arbitrary functions.

Where the code falls short of what one would expect of it, the model keeps the code, shows an input and proves
exactly when the expectation does hold:

* a sell limit is floored to a tick, so `availableWithin` can count a bid the seller may not hit
  (`LadderLimits.SellLimitExactIff`);
* `LadderBook::reduceTotal` leaves the level total too high exactly when it cuts hidden quantity
  (`Ladder.LadderBook.ReduceTotal`, `Ladder.LadderBook.Levels`, `LadderLimits.HiddenCutExample`);
* a fill-or-kill order under cancel-newest, cancel-both or decrement can stop half way at a maker of its own
  scope (`Crossing.FillOrKillIff`, `CrossingLimits.CancelNewestPrintsHalf`), and under pro-rata at a level
  whose makers have spent their allowance (`Crossing.FillOrKillProRataIff`);
* a pro-rata residual can rest at a crossing price, exactly when a level blocked the sweep
  (`ProRataResidual.RestsClearIff`, `ProRataResidual.RestsClearUnlimitedIff`); with a fill-limit hook installed
  that happens at a shared level even when no limit binds anybody, because each maker's answer about its own
  size bounds the whole level (`ProRataResidual.NeverBindsBlocksIff`, `ProRataResidual.SharedLevelStrands`,
  `CrossingLimits.UnmeasuredResidualCrosses`);
* under pro-rata the position limits are asked per maker at the position before the level, so an account with
  several makers at one level can end past its cap (`FillRiskProRata.CapsKeptProRataIff`,
  `CrossingLimits.TwoMakersPastCap`), and several reduce-only makers of one account past flat
  (`FillRiskProRata.LevelReducesIff`);
* a fill-or-kill plan stops moving positions once it covers the order, so makers of one account behind that point
  are each granted the account's whole headroom; if the sweep gets to them, past an iceberg that went to the back
  or at a shared level, the account ends past its cap (`FillRisk.CapsKept`,
  `FillRiskProRata.CapsKeptProRataIff`, `CrossingLimits.PlanPastCap`, `CrossingLimits.PlanPastCapProRata`). With no
  iceberg up to that point under price-time (`FillRiskPlan.FlatPlanKeeps`), or no two makers of one account
  under either policy (`FillRiskSingles.SinglesKeep`), nobody does;
* decrement-style prevention trims a resting order without telling the market-data publisher, so the feed goes on
  showing the old display until the order's next report, exactly when the cut reaches what it displayed
  (`PublicFeed.CrossHeard`, `PublicFeed.CutAsked`, `PublicFeed.StaleExample`);
* a subscription resumed with nothing to replay knows no epoch yet, and if the publisher restarts then, what the
  new one sends below the old position never reaches the client (`MdDistribution.FollowRestart`,
  `MdDistribution.ResumedThenRestarted`); if it restarts while a request is still on its way, what was parked of
  the new feed is filtered by its number alone (`MdDistribution.RestartInFlight`);
* a winner can itself be left below maintenance by what auto-deleveraging takes back from it, until the next
  check (`CrossMargin.WinnerLeftBelow`, `CrossMargin.Desk.CheckLiquidations`);
* an off-tick price rests one tick below on the ladder (`LadderLimits.FiledAlikeIff`);
* a depth delta of several levels can lose one that fits: the window is centred on the live levels and the
  quotes that missed it, and a quote of the same delta that lay inside the old window can fall out of the
  new one (`DepthBook.CentredAway`, `DepthBook.Book.ApplyDelta`);
* `GapDetector::reset` to a snapshot behind the stream delivers again what was delivered
  (`GapDetector.StaleResetRepeats`), and one to another epoch keeps and delivers what the old publisher sent
  from its position on (`GapDetector.ResetEpochIff`);
* the FIX resend service leaves a hole for a logged event that has no FIX form, and a peer cannot pass it
  (`FixResend.HoleBlocks`, `FixResend.ResendCompletesIff`).

`dafny verify dfyconfig.toml` checks the whole project.

## Model

| member | source | states |
|---|---|---|
| `IdIndex.LookupCorrect` | include/flox/book/ladder_book.h:754-769 | For any hash and any chained table, a probe finds an id if and only if it is live, at the one slot that holds its node. |
| `IdIndex.InsertCorrect` | include/flox/book/ladder_book.h:740-752 | Filing a fresh id keeps every probe chain and every other entry and adds exactly that entry. |
| `IdIndex.EraseCorrect` | include/flox/book/ladder_book.h:771-812 | Backward-shift deletion removes exactly the id: nothing else is lost, duplicated or cut off from its home slot. |
| `IdIndex.LoadIsLiveCount` | include/flox/book/ladder_book.h:708-731 | Occupied slots are as many as live ids, so load is the live count. |
| `IdIndex.RoomMeansVacancy` | include/flox/book/ladder_book.h:708-731 | A table with more slots than ids has a vacant one, so every probe and every deletion scan meets an empty slot. |
| `IdIndex.EraseUndoesInsert` | include/flox/book/ladder_book.h:740-812 | Deleting the id just filed restores the table slot for slot. |
| `IdIndex.EraseCommutesWithInsert` | include/flox/book/ladder_book.h:740-812 | Deleting one id and filing another commute slot for slot, although deletion moves entries. |
| `IndexHistory.HistoryIndependent` | include/flox/book/ladder_book.h:708-812 | After any history of filings and deletions the table is, slot for slot, the table the live ids would build from empty in filing order, and it is valid: deletion leaves no trace. |
| `Bitmap.HighestSetAtOrBelow` | include/flox/book/ladder_book.h:524-548 | The word scan returns the highest set bit at or below the start, or -1 when there is none. |
| `Bitmap.LowestSetAtOrAbove` | include/flox/book/ladder_book.h:549-578 | The word scan returns the lowest set bit at or above the start and below the level count, or -1. |
| `NodeLists.BypassLinked` | include/flox/book/ladder_book.h:659-687 | Linking a node's neighbours to each other leaves exactly the doubly linked list without it, with the right head and tail. |
| `NodeLists.LinkBehindLinked` | include/flox/book/ladder_book.h:102-149 | Linking a node behind the tail appends it to the list the pool spells out. |
| `LadderPrices.FloorDiv` | include/flox/book/ladder_book.h:466-472 | The corrected truncating division is the floor, for negative numerators too. |
| `LadderPrices.LevelOf` | include/flox/book/ladder_book.h:473-488 | The level of a price is the tick at or below it, -1 exactly below the ladder and the level count exactly above it. |
| `LadderPrices.CollectCorrect` | include/flox/book/ladder_book.h:258-275 | The occupied rows of a side, read in priority order, are a sorted side that holds each row at its level's price. |
| `LadderSides.LadderSide.Occupy` | include/flox/book/ladder_book.h:580-596 | A level's first order keeps the bitmap and the best cursor what the lists imply. |
| `LadderSides.LadderSide.Vacate` | include/flox/book/ladder_book.h:598-615 | A level's last order leaving keeps the bitmap and the best cursor what the lists imply. |
| `LadderSides.LadderSide.Unlink` | include/flox/book/ladder_book.h:659-687 | The side after a node left: its list without it, head, tail and cached total with it, bits and cursor exact; an emptied level's total returns to zero. |
| `LadderSides.LadderSide.MoveToTail` | include/flox/book/ladder_book.h:636-657 | The node goes to the end of its own queue and nothing else moves; the tail node stays where it is. |
| `LadderSides.LadderSide.RequeueFrontToTail` | include/flox/book/ladder_book.h:619-634 | The same for the head of a level. |
| `LadderState.Added` | include/flox/book/ladder_book.h:102-149 | After an order is filed the whole ladder state is consistent again and holds the book with the order at the end of its level's queue. |
| `LadderState.Removed` | include/flox/book/ladder_book.h:232-244 | After a node is unlinked, erased and freed the state is consistent and holds the book without that order. |
| `LadderState.Requeued` | include/flox/book/ladder_book.h:617-657 | After a requeue the state is consistent and the order is last of its queue. |
| `LadderState.SeekLive` | include/flox/book/ladder_book.h:157-161 | The id index knows exactly the orders of the held book, each at its one place. |
| `LadderState.ContentsUnique` | include/flox/book/ladder_book.h:659-706 | No id rests twice in the book a ladder holds. |
| `LadderState.IndexHalfEmpty` | include/flox/book/ladder_book.h:725-731 | The id index holds one entry per resting order and is less than half full in every state. |
| `LadderState.CachedExactIff` | include/flox/book/ladder_book.h:178-199 | The cached totals of a side are the sums of its orders if and only if nothing has drifted. |
| `LadderCount.CountsOrders` | include/flox/book/ladder_book.h:689-706 | The node counter is the number of orders in the book: free list and level lists partition the pool. |
| `Ladder.LadderBook.constructor` | include/flox/book/ladder_book.h:61-91 | A new ladder is consistent, empty, and its table has more than twice as many slots as nodes. |
| `Ladder.LadderBook.FindSlot` | include/flox/book/ladder_book.h:754-769 | The probe answers the node of an order exactly when it rests. |
| `Ladder.LadderBook.InsertSlot` | include/flox/book/ladder_book.h:740-752 | The array after an insertion is the table function's, and it fails only when no slot is vacant. |
| `Ladder.LadderBook.EraseSlot` | include/flox/book/ladder_book.h:771-812 | The in-place shift loop computes the deletion function. |
| `Ladder.LadderBook.AddResting` | include/flox/book/ladder_book.h:102-149 | Refuses exactly a price off the band or an exhausted pool and then changes nothing; otherwise the order is last at its level; exact totals stay exact. |
| `Ladder.LadderBook.Cancel` | include/flox/book/ladder_book.h:232-244 | Answers the resting order, if any, and removes exactly it; exact totals stay exact. |
| `Ladder.LadderBook.Reduce` | include/flox/book/ladder_book.h:165-176 | Changes the displayed size in place and keeps the queue position; exact totals stay exact. |
| `Ladder.LadderBook.ReduceTotal` | include/flox/book/ladder_book.h:178-199 | Cuts hidden before displayed in place; exact totals stay exact if and only if no hidden quantity was cut. |
| `Ladder.LadderBook.ConsumeById` | include/flox/book/ladder_book.h:201-230 | A fill by id shrinks the order, shows its next peak at the end of the queue, or removes it, as the abstract book does; only that queue changes: an order whose display is taken goes last with its total less the fill, showing exactly its peak or hiding nothing, and any other keeps its place. |
| `Ladder.LadderBook.FillBest` | include/flox/book/ladder_book.h:295-328 | The same for the head of the best level; nothing on an empty side, with the same effect on the queue. |
| `Ladder.LadderBook.Find` | include/flox/book/ladder_book.h:157-161 | Answers the order of the abstract book. |
| `Ladder.LadderBook.PeekBest` | include/flox/book/ladder_book.h:246-255 | Answers the first order of the best level, read off the cursor and the head link. |
| `Ladder.LadderBook.BestPrice` | include/flox/book/ladder_book.h:354-361 | The cached cursor is the best price of the book. |
| `Ladder.LadderBook.BestLevel` | include/flox/book/ladder_book.h:278-293 | The best level's orders in FIFO order. |
| `Ladder.LadderBook.ForEachOrder` | include/flox/book/ladder_book.h:330-352 | Walks every order once, bids best first, then asks best first, FIFO within a level. |
| `Ladder.LadderBook.Levels` | include/flox/book/ladder_book.h:258-275 | The aggregates are the true level totals if and only if the side has no drift. |
| `Ladder.LadderBook.AvailableWithin` | include/flox/book/ladder_book.h:363-386 | The sweepable quantity is the book's own within the effective limit plus the drift of the levels reached; with exact totals it is the book's own. |
| `Ladder.LadderBook.Visit` | include/flox/book/ladder_book.h:388-430 | The makers an excluding precheck sees are the orders within the effective limit, in sweep order. |
| `MatchingBook.MatchingBook.AddResting` | venue/include/flox-venue/matching_book.h:50-58 | The order joins the end of its price's list under the side it is added to, and the id index follows. |
| `MatchingBook.MatchingBook.Cancel` | venue/include/flox-venue/matching_book.h:152-184 | Answers and removes exactly the order; an emptied level disappears. |
| `MatchingBook.MatchingBook.ReduceTotal` | venue/include/flox-venue/matching_book.h:85-101 | Cuts hidden before displayed in place. |
| `MatchingBook.MatchingBook.ConsumeById` | venue/include/flox-venue/matching_book.h:107-150 | A fill by id shrinks, refills at the tail or removes; only that queue changes: an order whose display is taken goes last with its total less the fill, showing exactly its peak or hiding nothing, and any other keeps its place. |
| `MatchingBook.MatchingBook.FillBest` | venue/include/flox-venue/matching_book.h:288-298 | A fill at the head of the best list, with the same effect on the queue. |
| `MatchingBook.MatchingBook.Levels` | venue/include/flox-venue/matching_book.h:211-239 | Per level the sum of displayed and hidden, best first. |
| `MatchingBook.MatchingBook.AvailableWithin` | venue/include/flox-venue/matching_book.h:321-330 | The sum over exactly the levels the taker's limit reaches. |
| `MatchingBook.MatchingBook.ForEachOrder` | venue/include/flox-venue/matching_book.h:189-209 | Canonical order: bids best first, then asks best first, FIFO within a level. |
| `OrderBook.ConsumeLeaves` | venue/include/flox-venue/matching_book.h:107-150 | What a fill leaves of a queue, in plain terms: less of the order in its place, its next peak last of the queue, or nothing of it; everybody else as before. |
| `OrderBook.ConsumeShows` | venue/include/flox-venue/matching_book.h:107-150 | A fill by id changes the queue the order stands in, as that says, and nothing else in the book. |
| `OrderBook.FillBestShows` | venue/include/flox-venue/matching_book.h:380-410 | A fill at the top does the same at the head of the best level. |
| `Differential.Run` | venue/include/flox-venue/matching_book.h:13-20 | For every run of add, cancel, reduce, reduceTotal, consumeById and fillBest, ladder and reference give the same answers and show the same orders, best prices, heads, best levels and, while no hidden quantity has been cut, level totals, namely those of the abstract book; the ladder refuses exactly off-band prices and a full pool; if every order starts within its peak and is filled for no more than it shows, none ever shows more than its peak in either book. |
| `Differential.TraceKeepsPeaks` | venue/include/flox-venue/matching_book.h:107-150 | Over every run of operations no order with a peak that started within it ever shows more than its peak, after any step. |
| `LadderLimits.SellLimitExactIff` | include/flox/book/ladder_book.h:490-502 | A seller's sweep is answered as the reference book answers it if and only if nothing rests at the tick its limit is floored to, or the limit is not above that tick. |
| `LadderLimits.SellLimitExample` | include/flox/book/ladder_book.h:490-502 | On a ladder and a reference book holding one bid at 10, a seller at 15 on a tick of 10 is told of it by the ladder and of nothing by the reference. |
| `LadderLimits.HiddenCutExample` | include/flox/book/ladder_book.h:188-197 | Cutting an iceberg's hidden quantity makes the two books' level totals differ. |
| `LadderLimits.FiledAlikeIff` | include/flox/book/ladder_book.h:102-149 | An order the ladder takes is filed as the reference book files it if and only if its price is on tick and it names the side it is filed on. |
| `Aggressor.NextOk` | venue/include/flox-venue/matcher.h:215-369 | One turn of the price-time sweep keeps the side well-formed: sorted, executable, ids distinct. |
| `Aggressor.Sweep` | venue/include/flox-venue/matcher.h:215-369 | The sweep ends for any fill-limit hook, and ends only when nothing is left, nothing crosses, or it was stopped. |
| `Aggressor.ScopeMeans` | venue/include/flox-venue/matcher.h:594-602 | Prevention applies exactly between accounts of one firm when the order asks for it: the same account, two registered to one group, or an unregistered one whose number is the other's group. |
| `Audit.PreventInOrder` | venue/include/flox-venue/matcher.h:631-689 | Every self-trade prevention mode leaves a tape the auditor accepts: cancels report the whole order, decrements take the same quantity off both sides; the auditor allows each cancel and cut only under the mode that makes it, against a maker of the same scope. |
| `Audit.FillReported` | venue/include/flox-venue/matcher.h:300-369 | After a fill the maker's report is true of the book: gone, or resting with this total, display and cumulative quantity. |
| `Audit.SweepInOrder` | venue/include/flox-venue/matcher.h:215-414 | The whole price-time tape replays to the side the sweep left; every bite is with the head of the best queue, within the limit, outside the aggressor's scope and as large as the hook grants; each print is followed by true reports to both sides, price and last quantity included; a maker is cancelled only as its prevention mode or a blocking hook says; quantity equals traded, held, decremented and left, and the book's total falls by what the tape says. |
| `Allocation.AllocationExact` | venue/include/flox-venue/matcher.h:840-872 | Allocations sum to exactly what is wanted, each between its floor share and its size, excluded makers get nothing, rounding falls short by less than one unit per participant and all of it is placed, earliest first; nobody gets a whole unit less than its size's part of what is wanted. |
| `Allocation.Allocate` | venue/include/flox-venue/matcher.h:840-872 | The two in-place passes compute that allocation. |
| `ProRataSweep.NextLevelOk` | venue/include/flox-venue/matcher.h:745-907 | One pro-rata turn keeps the side well-formed and the tape acceptable and makes progress, although the level is re-read by id while it is filled. |
| `ProRataSweep.SweepLevels` | venue/include/flox-venue/matcher.h:706-941 | The pro-rata sweep ends and its tape passes the audit, the head-of-queue rule aside. |
| `AllOrNone.PlanFits` | venue/include/flox-venue/matcher.h:444-523 | For any dry risk hook the plan gives every tradable maker in range an allowance within its size, and what the makers may give adds up to the plan's total. |
| `AllOrNone.PlanMeasures` | venue/include/flox-venue/matcher.h:444-523 | The plan has one bite for each firm maker of another firm in range, in sweep order, and each is what the dry hook grants of its whole size at the positions the bites before it leave both accounts of every print, up to the order's own quantity. |
| `AllOrNone.AcceptsFreeIff` | venue/include/flox-venue/matcher.h:444-523 | Without a dry hook the plan lets an order through if and only if every maker of another firm in range is firm and together they hold it, displayed and hidden. |
| `AllOrNone.CoveredCompletes` | venue/include/flox-venue/matcher.h:552-589 | A sweep whose plan covers the order fills it to the last unit; no live limit answer can stop it. |
| `AllOrNone.AcceptedFills` | venue/include/flox-venue/matcher.h:240-369 | With no prevention or cancel-oldest, an accepted fill-or-kill order fills completely. |
| `AllOrNone.AcceptedFillsIff` | venue/include/flox-venue/matcher.h:259-272 | Under the other prevention modes an accepted order fills completely if and only if it is no larger than what stands ahead of its first same-scope maker, icebergs counting one peak. |
| `ProRataPlan.AcceptedFillsLevelsIff` | venue/include/flox-venue/matcher.h:728-907 | Under pro-rata, for every prevention mode and any dry hook, an accepted order fills completely if and only if it is no larger than the allowances up to the first level that would keep a maker or cost the aggressor. |
| `ProRataPlan.FreeFills` | venue/include/flox-venue/matcher.h:728-907 | When no limit binds, no last-look maker is in range and prevention is harmless, it always fills. |
| `Crossing.CrossHonest` | venue/include/flox-venue/matcher.h:215-414 | For both policies and any hooks, replaying the tape over the book before gives the book after, the taker's own side is untouched, and the order's quantity is traded plus held plus decremented plus left, and every print has been reported to both sides by the end. |
| `Crossing.PostOnlyMakes` | venue/include/flox-venue/matcher.h:222-240 | A post-only order is refused exactly when it would cross and otherwise leaves tape and book alone. |
| `Crossing.OneFate` | venue/include/flox-venue/matcher.h:369-414 | Every order is exactly one of refused, complete, resting or killed; what rests has quantity left and a time in force that lets it. |
| `Crossing.TradesLegal` | venue/include/flox-venue/matcher.h:259-272 | No run of either policy prints between two accounts of one firm, by group registration and account number alone, beyond the limit or for nothing. |
| `Crossing.TapeLawful` | venue/include/flox-venue/matcher.h:594-689 | Under either policy an order that asks for prevention trades and holds with no account of its firm, prevention cancels only accounts of its firm, and a resting order is cut only for an order that asks for decrements. |
| `Crossing.TradesWorsen` | venue/include/flox-venue/matcher.h:240-369 | Prints come best price first: a later one never beats an earlier one. |
| `Crossing.FillOrKill` | venue/include/flox-venue/matcher.h:240-369 | Price-time with harmless prevention: refused with an empty tape and the same book, or filled completely. |
| `Crossing.FillOrKillIff` | venue/include/flox-venue/matcher.h:259-272 | The other modes: an admitted order fills completely exactly when it fits ahead of its own scope. |
| `Crossing.FillOrKillProRataIff` | venue/include/flox-venue/matcher.h:728-907 | Pro-rata: an admitted order fills completely exactly when the cap covers it; a refused one changes nothing. |
| `Crossing.NeverStuck` | venue/include/flox-venue/matcher.h:273-300 | With executable makers the zero-bite guard of the price-time loop never fires. |
| `Crossing.RestsUncrossed` | venue/include/flox-venue/matcher.h:369-414 | Price-time, any hook: a residual told to rest does not cross what stands opposite. |
| `Crossing.SubmitUncrossed` | venue/include/flox-venue/engine/validate.inl:631-649 | Crossing and resting the residual, icebergs showing one peak, keeps both sides well-formed and the best bid below the best ask. |
| `Crossing.WithdrawUncrossed` | venue/include/flox-venue/matching_book.h:152-184 | Cancelling any order keeps the book uncrossed. |
| `Crossing.Run` | venue/include/flox-venue/matcher.h:215-414 | Every run of submits and cancels from an uncrossed book ends in an uncrossed, well-formed book, each command under rules of its own: hooks may answer anything from one order to the next. |
| `Endings.PreventMeans` | venue/include/flox-venue/matcher.h:631-689 | The mode decides who goes: cancel-oldest the resting order, cancel-newest the aggressor, cancel-both both, and decrement takes the smaller of the two whole sizes off each. |
| `Endings.EndsForCause` | venue/include/flox-venue/matcher.h:369-414 | Under both policies every order killed was killed for the reason given: by prevention at its own firm, by a hook that blocked it, or as the residual of a market, immediate-or-cancel or fill-or-kill order; an order with nothing left completed or was decremented away. |
| `Icebergs.CrossKeepsPeaks` | venue/include/flox-venue/matcher.h:300-369 | Under either policy, any hooks and any plan, no resting order that started within its peak shows more than its peak after a crossing. |
| `Icebergs.ResidualWhole` | venue/include/flox-venue/engine/validate.inl:631-649 | What rests of an order rests whole under its own name and terms, showing the asked display when that is less than what is left and everything otherwise. |
| `Icebergs.RunKeepsPeaks` | venue/include/flox-venue/matcher.h:215-414 | Over every run of submits and cancels no resting order shows more than its peak. |
| `ProRataResidual.BlockedStays` | venue/include/flox-venue/matcher.h:827-844 | A level that cannot be given from, or that the aggressor's own bound stops short of, ends the sweep with quantity left and its price still standing. |
| `ProRataResidual.RestsClearIff` | venue/include/flox-venue/matcher.h:827-906 | Pro-rata, any fill-limit hook: a residual told to rest is clear of the opposite side if and only if no level of the sweep blocked it. |
| `ProRataResidual.RestsClearUnlimitedIff` | venue/include/flox-venue/matcher.h:803-906 | Pro-rata without a hook: a residual told to rest is clear if and only if every maker the order could reach before the sweep was firm or of its own scope. |
| `ProRataResidual.RestsUncrossedProRata` | venue/include/flox-venue/matcher.h:841-907 | In particular, among firm makers and without a hook it never crosses. |
| `ProRataResidual.NeverBindsBlocksIff` | venue/include/flox-venue/matcher.h:827-844 | Under a hook that grants every question in full, a firm level blocks if and only if it holds a second maker and the order exceeds some maker there. |
| `ProRataResidual.SharedLevelStrands` | venue/include/flox-venue/engine/validate.inl:352-358 | So with the engine's unmeasured hook every order that may rest and exceeds a maker of a shared best level rests at a crossing price. |
| `ProRataResidual.SubmitUncrossedProRataIff` | venue/include/flox-venue/matcher.h:706-941 | Submitting under pro-rata keeps an uncrossed book uncrossed if and only if no order that rests was blocked; both sides stay well-formed either way. |
| `ProRataResidual.RunProRata` | venue/include/flox-venue/engine/validate.inl:105-112 | Without a hook, every run of submits and cancels under pro-rata from an uncrossed firm book ends uncrossed and firm, admission refusing last look. |
| `FillRisk.LegLimitExact` | venue/include/flox-venue/engine/credit.h:666-698 | A leg's limit admits exactly the quantities that close no more than is open, when it may only reduce, and end no further out than the cap. |
| `FillRisk.PairLimitSafe` | venue/include/flox-venue/engine/credit.h:704-744 | The pair's answer lies between zero and what was asked for and is safe for both legs. |
| `FillRisk.PairLimitExact` | venue/include/flox-venue/engine/credit.h:704-744 | The pair admits exactly the quantities safe for both legs and tells each leg's own answer; the maker is blocked exactly when not one unit is safe for it; a cut is put down to the leg that allows less and to the limit one more unit would break. |
| `FillRisk.MeasuredOk` | venue/include/flox-venue/engine/validate.inl:344-361 | The engine's hook, reading positions the tape so far has moved, meets what the sweeps assume of a hook. |
| `FillRisk.MakerReduces` | venue/include/flox-venue/engine/validate.inl:344-361 | A turn moves its maker's account towards flat and not past it if and only if it bites no more than is open, which without a plan holds of every reduce-only maker. |
| `FillRisk.CapsKept` | venue/include/flox-venue/engine/validate.inl:344-379 | Over a whole price-time crossing under the engine's live and plan hooks, every account that starts within its cap ends within it, and a reduce-only taker between flat and where it started, if and only if no turn of the sweep bites past what a leg has room for; without an all-or-none plan none does. |
| `FillRisk.SweepInBoundsIff` | venue/include/flox-venue/matcher.h:274-430 | The same from any point of a price-time sweep, for any hooks and any plan. |
| `FillRiskPlan.FlatPlanKeeps` | venue/include/flox-venue/matcher.h:444-589 | Price-time: a fill-or-kill order takes nobody past his limits when no iceberg stands among the makers the plan walks before it covers the order. |
| `FillRiskSingles.SinglesKeep` | venue/include/flox-venue/matcher.h:444-589 | Either policy: nor does it when no account outside the taker's scope has two makers in range and none of them is the taker's own. |
| `FillRiskProRata.LevelWithinIff` | venue/include/flox-venue/matcher.h:803-907 | With or without a plan, after one shared level every position is within its limits if and only if no account is given more, over all its makers there, and the taker takes no more, than there was room for. |
| `FillRiskProRata.LevelReducesIff` | venue/include/flox-venue/matcher.h:846-907 | The makers of one account at a shared level take it towards flat and not past it if and only if together they are given no more than it has open. |
| `FillRiskProRata.OneMakerApportioned` | venue/include/flox-venue/matcher.h:803-844 | Without a plan, where every account has one maker at the level, nobody is given more than its cap has room for and no reduce-only maker more than it has open. |
| `FillRiskProRata.SmallMakerBounds` | venue/include/flox-venue/matcher.h:827-844 | Without a plan no account is given more at a level than its smallest firm maker shows. |
| `FillRiskProRata.CapsKeptProRataIff` | venue/include/flox-venue/matcher.h:706-941 | Over a whole pro-rata crossing, fill-or-kill or not, every position stays within its limits if and only if no level of it gave the makers of one account, or took for the taker, more than there was room for; without a plan a reduce-only taker always ends between flat and where it started. |
| `CrossingLimits.CancelNewestPrintsHalf` | venue/include/flox-venue/matcher.h:464-467 | A fill-or-kill order of 10 whose own account stands between two makers of 5 prints half under cancel-newest. |
| `CrossingLimits.ProRataResidualCrosses` | venue/include/flox-venue/matcher.h:841-907 | A pro-rata aggressor limited to 4 of 10 rests 6 at a price that crosses. |
| `CrossingLimits.UnmeasuredResidualCrosses` | venue/include/flox-venue/engine/validate.inl:352-358 | With the hook installed and no limit on anybody, a buyer of 8 facing sellers of 3 and 5 rests at a crossing price. |
| `CrossingLimits.TwoMakersPastCap` | venue/include/flox-venue/matcher.h:827-836 | One account with two offers of 10 and a cap of 6 ends 10 short when a buyer of 10 is shared out. |
| `CrossingLimits.PlanPastCap` | venue/include/flox-venue/matcher.h:470-498 | A fill-or-kill buyer of 10 under price-time meets an iceberg of 10 showing 1 and, behind it, two offers of 2 of one account capped at 2: the plan grants 10, 2 and 2, and the account ends past its cap. |
| `CrossingLimits.PlanPastCapProRata` | venue/include/flox-venue/matcher.h:470-498 | Under pro-rata the same account with three offers of 2 beside one of 10 is given 3 of the 10 lots. |
| `Matcher.ScanCovers` | venue/include/flox-venue/matcher.h:533-546 | A scan of the plan from the last hit that wraps once meets every entry. |
| `Matcher.NonFirmIff` | venue/include/flox-venue/matcher.h:505-523 | Comparing the two depths detects exactly a non-firm maker in range. |
| `Matcher.Matcher.FindBite` | venue/include/flox-venue/matcher.h:533-546 | Finds a maker's plan entry exactly when there is one. |
| `Matcher.Matcher.PlanFillOrKill` | venue/include/flox-venue/matcher.h:444-523 | Accepts exactly when the plan covers the order and everybody in range is firm, and leaves that plan in force. |
| `Matcher.Matcher.ApplyStp` | venue/include/flox-venue/matcher.h:631-689 | Applies the prevention mode to the book, the taker's quantity and the tape, and tells the loop to go on, re-peek or stop; it does nothing exactly when the order asks for no prevention or the maker is of another firm. |
| `Matcher.Matcher.SweepFifo` | venue/include/flox-venue/matcher.h:240-414 | The in-place price-time loop computes the sweep: outcome, tape and book. |
| `Matcher.Matcher.MeasureLevel` | venue/include/flox-venue/matcher.h:803-840 | Sizes, their total and the aggressor's room at a level, from the plan or the live hook. |
| `Matcher.Matcher.SweepProRata` | venue/include/flox-venue/matcher.h:745-941 | The in-place pro-rata loop computes the level sweep. |
| `Matcher.Matcher.Cross` | venue/include/flox-venue/matcher.h:215-414 | The matcher on a book gives the outcome, tape and book of `Crossing.Cross`, for both policies, and every event of it is lawful between firms. |
| `MarketData.HandleShown` | venue/include/flox-venue/market_data.h:359-490 | Each event, as published, does to a consumer's visible book what it does to the publisher's. |
| `MarketData.CatchUp` | venue/tests/test_venue_md_distribution.cpp:95-140 | A consumer that agrees with the feed at any message and applies the rest agrees at the end. |
| `MarketData.BodyRebuilds` | venue/include/flox-venue/market_data.h:220-261 | A snapshot body rebuilds the publisher's orders. |
| `MarketData.Publisher.OnEvent` | venue/include/flox-venue/market_data.h:144-193 | Numbers stay contiguous from 1, the ring holds the latest messages, the depth is the sum of the visible orders, and the published feed always rebuilds what is shown; an order that comes to rest is shown at its display, or whole when it has none, a report or modification sets it to the size it names, a completed or cancelled one is gone, no other order is touched, and the message carries the event's own figures. |
| `MarketData.Publisher.ResendFrom` | venue/include/flox-venue/market_data.h:263-290 | Answers exactly the messages from the number on, and refuses exactly when the ring no longer has them. |
| `MarketData.Publisher.SnapshotAtomic` | venue/include/flox-venue/market_data.h:220-261 | The book, the last status and derivatives and the sequence they stand at, orders once each in id order. |
| `MarketData.Publisher.Digest` | venue/include/flox-venue/market_data.h:323-490 | Orders and aggregated depth move together for every event kind. |
| `PublicFeed.CrossHeard` | venue/include/flox-venue/market_data.h:387-490 | A publisher told the tape of a crossing under either policy and how the order ended shows the book the crossing leaves: every order at its displayed size, refilled makers at their new peak, and nothing of any reserve; it shows too much of an order if and only if the crossing ended in a decrement that cut an order's display. |
| `PublicFeed.CutAsked` | venue/include/flox-venue/matcher.h:671-681 | Only an order that asks for decrement prevention leaves such a cut. |
| `PublicFeed.StaleExample` | venue/include/flox-venue/engine/dispatch.inl:131-132 | An offer of 10 cut to 6 by its own account's order for 4 stays on the feed at 10. |
| `PublicFeed.WithdrawHeard` | venue/include/flox-venue/engine/orders.inl:528-535 | A cancelled order is off the feed. |
| `PublicFeed.Engine.Submit` | venue/include/flox-venue/engine/validate.inl:631-706 | Matching in place, resting the residual and telling the publisher: book, feed and what is shown too large stay in step; an id that rests or has a fill held is refused. |
| `PublicFeed.Engine.Withdraw` | venue/include/flox-venue/engine/orders.inl:528-535 | The same for a cancel. |
| `PublicFeed.Engine.Run` | venue/include/flox-venue/market_data.h:144-193 | Over every run of orders and cancels, each under rules of its own, a consumer of the whole feed shows exactly the book at its displayed sizes but for orders that decrement prevention cut; without decrement orders, exactly the book. |
| `MdDistribution.Session.OnIncrement` | venue/include/flox-venue/md_distribution.h:243-294 | Parks while a hand-over is in flight and dies on overflow, skips what the hand-over covered, delivers the rest, and starts over at a new epoch. |
| `MdDistribution.Session.Arm` | venue/include/flox-venue/md_distribution.h:395-450 | The wire gets what was fetched and then exactly the parked frames it does not cover. |
| `MdDistribution.AfterParked` | venue/include/flox-venue/md_distribution.h:427-433 | Of the frames parked since a message, those from a later number on are the feed from that number on. |
| `MdDistribution.HandOverReplay` | venue/include/flox-venue/md_distribution.h:401-414 | A ring replay and the parked rest are the feed from the requested number on, without loss, repeat or reorder. |
| `MdDistribution.HandOverSnap` | venue/include/flox-venue/md_distribution.h:415-426 | A snapshot at L and the parked rest are the snapshot and L+1, L+2 and so on. |
| `MdDistribution.Serve` | venue/include/flox-venue/md_distribution.h:356-450 | For every interleaving of publishing with one request, nothing reaches the wire before the hand-over, and from then on, while the connection lives, the wire has grown by exactly the stream of this request; an open subscription is up to date. |
| `MdDistribution.FollowRestart` | venue/include/flox-venue/md_distribution.h:277-293 | While another publisher's feed follows on an open subscription, the client gets all of it if and only if the session knew it served another epoch or nothing of the feed lies below its position. |
| `MdDistribution.ParkAll` | venue/include/flox-venue/md_distribution.h:243-276 | What a feed sends to a session whose request is on its way is parked whole, or kills the connection exactly when there is more of it than room. |
| `MdDistribution.RestartInFlight` | venue/include/flox-venue/md_distribution.h:277-450 | A publisher restarted while a request is on its way: with room to park, the client gets the whole new feed if and only if nothing parked of it lies below the position the hand-over sets, and either the hand-over carried a message or snapshot of another epoch or nothing that follows lies below that position. |
| `MdDistribution.ResumedThenRestarted` | venue/include/flox-venue/md_distribution.h:409-412 | A client that resumed with nothing to replay never sees a restarted publisher's message below its position. |
| `MdDistribution.StreamRebuilds` | venue/tests/test_venue_md_distribution.cpp:95-140 | Applying that stream rebuilds the publisher's visible book, from any state after a snapshot and from an agreeing one after a replay. |
| `MdDistribution.StreamIs` | venue/include/flox-venue/md_distribution.h:401-426 | Read off the wire: a client the ring cannot serve is told a snapshot is required and then gets the book, a fresh client gets the book, a resumed one neither; then every message from its start on that the encoding has, once, in order, and nothing else. |
| `GapDetector.DeliversPrefix` | venue/include/flox-venue/resend_buffer.h:69-127 | Any lossy, duplicated, reordered arrivals of one epoch that stay under the limit deliver exactly 1, 2, ... up to the first message that never arrived, once each; a reported gap starts at that message. |
| `GapDetector.StartsOver` | venue/include/flox-venue/resend_buffer.h:69-90 | An unseen stream and one of an earlier epoch behave as a fresh one from the first arrival on. |
| `GapDetector.ObserveConserves` | venue/include/flox-venue/resend_buffer.h:69-127 | Any arrival, overflow included: deliveries rise strictly and every message taken in is delivered or held, never both. |
| `GapDetector.FeedConserves` | venue/include/flox-venue/resend_buffer.h:162-182 | Over any run of one epoch, overflowing or not, deliveries rise strictly and nothing taken in is lost. |
| `GapDetector.GapReRaised` | venue/include/flox-venue/resend_buffer.h:105-127 | While a gap stays open it is reported again within every `reraiseAfter` arrivals. |
| `GapDetector.ResetTracks` | venue/include/flox-venue/resend_buffer.h:131-144 | After a snapshot not behind the stream, delivery goes on exactly where the snapshot ended. |
| `GapDetector.StaleResetRepeats` | venue/include/flox-venue/resend_buffer.h:131-144 | After a snapshot behind the stream a delivered message is delivered again. |
| `GapDetector.ObserveOneEpoch` | venue/include/flox-venue/resend_buffer.h:69-127 | Whatever arrives, what is delivered and what stays held carries the arrival's epoch, a restarted publisher included. |
| `GapDetector.ResetEpochIff` | venue/include/flox-venue/resend_buffer.h:131-144 | After a reset to another epoch the stream answers for that epoch alone if and only if nothing was held from the position on; an old message held at the position is delivered at once. |
| `GapDetector.GapDetector.Observe` | venue/include/flox-venue/resend_buffer.h:69-127 | One symbol's stream moves by the arrival function, no other stream moves and every stream holds only what is ahead of it; a new epoch is reported exactly when it is one. |
| `GapDetector.GapDetector.DrainHeld` | venue/include/flox-venue/resend_buffer.h:162-170 | The loop delivers the contiguous run at the front of what is held. |
| `GapDetector.GapDetector.AbandonGap` | venue/include/flox-venue/resend_buffer.h:175-182 | The loop delivers everything held in order, holes and all. |
| `GapDetector.GapDetector.Reset` | venue/include/flox-venue/resend_buffer.h:131-144 | Drops what the snapshot covered, delivers the run from there and keeps the rest. |
| `Ledger.TotalMoved` | venue/include/flox-venue/ledger.h:105-203 | A flow changes an asset's total by exactly what it moves and no other asset's. |
| `Ledger.Mirrored` | venue/include/flox-venue/ledger.h:105-203 | A credit mirrored on another account changes no total and no third account. |
| `Ledger.Ledger.Debit` | venue/include/flox-venue/ledger.h:194-203 | All or nothing: succeeds exactly when enough is available. |
| `Ledger.Ledger.Reserve` | venue/include/flox-venue/ledger.h:124-134 | Moves available to reserved all or nothing; no total changes. |
| `Ledger.Ledger.Release` | venue/include/flox-venue/ledger.h:137-144 | Moves back at most what is reserved; no total changes. |
| `CrossMargin.HaircutOneSided` | venue/include/flox-venue/collateral.h:73-99 | A haircut never adds to what is owned and never forgives what is owed. |
| `CrossMargin.NotionalNear` | venue/include/flox-venue/ledger.h:62-75 | A notional is price times quantity at money scale, at every price and quantity scale, to less than one unit of money, or one unit of quantity in money when the product leaves 128 bits, and rounded toward zero. |
| `CrossMargin.PnlNear` | venue/include/flox-venue/cross_margin.h:302-325 | A leg has gained the move from its entry to its mark on its signed quantity, in its symbol's scales, to less than a grain; without a mark nothing. |
| `CrossMargin.MarginNear` | venue/include/flox-venue/cross_margin.h:364-372 | A leg's requirement is its size at the mark times the initial or maintenance rate of its own symbol, the fallback's only where none is configured, to the rounding of the two divisions. |
| `CrossMargin.ValueNear` | venue/include/flox-venue/collateral.h:73-99 | What is owned counts at its price less the haircut, whatever the haircut, what is owed at its price, what is not posted not at all, to the rounding of the divisions. |
| `CrossMargin.WalletMoves` | venue/include/flox-venue/cross_margin.h:153-164 | A change in one asset moves the wallet by what that asset counts for: its quote amount, or its haircut value under a schedule. |
| `CrossMargin.LegCounts` | venue/include/flox-venue/cross_margin.h:309-343 | A leg moves what is unrealized and what is required by its own share. |
| `CrossMargin.FillLegNets` | venue/include/flox-venue/cross_margin.h:243-278 | A fill moves the position by exactly its size, and a reducing fill keeps the entry. |
| `CrossMargin.FillLegNetted` | venue/include/flox-venue/cross_margin.h:261-273 | The entry stays while a position is reduced, is the price of a position opened from nothing or through zero, and where the position grows is the average of both parts, short of it by less than one unit of price. |
| `CrossMargin.RealisedNear` | venue/include/flox-venue/cross_margin.h:249-258 | Profit is realised on the part that closes, at the move from its entry, and on nothing else. |
| `CrossMargin.FillAtMark` | venue/include/flox-venue/cross_margin.h:243-278 | A fill at the mark makes nobody richer or poorer: realised plus unrealized profit is what was unrealized before, up to the stated rounding. |
| `CrossMargin.FundingNear` | venue/include/flox-venue/cross_margin.h:114-121 | Funding is the position at the mark times the rate, to the rounding of the two divisions; without a position nothing. |
| `CrossMargin.FundingSides` | venue/include/flox-venue/cross_margin.h:95-121 | At a positive rate a long never receives and a short never pays, at a negative rate the other way round. |
| `CrossMargin.EquityFrame` | venue/include/flox-venue/cross_margin.h:155-168 | Equity depends only on the account's own positions and balances. |
| `CrossMargin.UnitsFit` | venue/include/flox-venue/cross_margin.h:571-599 | Coin sold for part of its value never exceeds the balance, so the all-or-nothing debit succeeds. |
| `CrossMargin.SoldWithin` | venue/include/flox-venue/cross_margin.h:571-599 | No posted asset is oversold and one that is owed is not sold. |
| `CrossMargin.SoldOut` | venue/include/flox-venue/cross_margin.h:571-599 | A deficit as large as everything pledged sells every pledged asset out. |
| `CrossMargin.SoldShare` | venue/include/flox-venue/cross_margin.h:571-599 | Each asset is sold for its share of what the assets before it leave of the deficit, to less than one unit of it. |
| `CrossMargin.Desk.EquityNow` | venue/include/flox-venue/cross_margin.h:155-168 | The loops compute wallet plus unrealized profit, whatever order the legs come in. |
| `CrossMargin.Desk.MarginNow` | venue/include/flox-venue/cross_margin.h:327-343 | The loop computes the sum of the legs' margins. |
| `CrossMargin.Desk.FreeValueNow` | venue/include/flox-venue/collateral.h:118-128 | The loop computes the haircut value of the available basket. |
| `CrossMargin.Desk.ApplyFill` | venue/include/flox-venue/cross_margin.h:243-278 | Nets the leg: quantity, kept, averaged or new entry as `CrossMargin.FillLegNetted` says, gone when nothing is left; pays the account exactly the realised profit of the reducing part out of the venue, and moves no other account, leg or asset; at the mark, quote plus unrealized profit stay what they were up to rounding. |
| `CrossMargin.Desk.PayFunding` | venue/include/flox-venue/cross_margin.h:99-121 | Every account is paid exactly its funding on its own leg; totals do not change. |
| `CrossMargin.Desk.RealizeAll` | venue/include/flox-venue/cross_margin.h:412-421 | Closing every leg pays exactly the unrealized profit. |
| `CrossMargin.Desk.ConvertCollateral` | venue/include/flox-venue/cross_margin.h:568-599 | The account gets the lesser of the deficit and everything pledged, and gives of each asset exactly the units that pays for, in asset order; totals do not change. |
| `CrossMargin.Desk.Candidates` | venue/include/flox-venue/cross_margin.h:477-505 | Exactly the profitable legs opposite a bankrupt one, each with the profit it would realise. |
| `CrossMargin.Desk.CloseWinner` | venue/include/flox-venue/cross_margin.h:527-564 | A winner keeps its realised profit less the least of what is still owed, that profit and what it has; it ends no lower than before. |
| `CrossMargin.Desk.AutoDeleverage` | venue/include/flox-venue/cross_margin.h:467-566 | Takes at most the deficit in all, from winners in rank order and from each at most its profit; falls short only when every winner has been closed; nobody ends lower, nobody else is touched and totals do not change; profits come in falling order and no winner left alone stands to realise more than one that was closed. |
| `CrossMargin.WinnerIs` | venue/include/flox-venue/cross_margin.h:483-500 | Winners hold the opposite side of a leg that was closed and stand to realise a profit on it. |
| `CrossMargin.Desk.Liquidate` | venue/include/flox-venue/cross_margin.h:404-462 | The account ends flat with exactly its quote plus unrealized profit, or zero if that is a debt; winners give back at most what is still missing once every pledged coin is sold, and less only when no winner is left; nobody else is touched, nobody but the venue ends lower, totals do not change. |
| `CrossMargin.Desk.Breaching` | venue/include/flox-venue/cross_margin.h:374-390 | Exactly the open accounts below maintenance. |
| `CrossMargin.Desk.CheckLiquidations` | venue/include/flox-venue/cross_margin.h:374-402 | Whoever is still open was above maintenance; every leg closed for a bankrupt account stood at a profit and is gone; an account above maintenance with none of them stands unchanged above it, and one with some is worth exactly what was taken back from it less wherever quote counts at face value; with auto-deleveraging off and the venue flat, exactly the breaching accounts are closed out to what they were worth or to zero. |
| `CrossMargin.Desk.SetMark` | venue/include/flox-venue/cross_margin.h:86-93 | All of that after every unpaused mark; paused, only the mark changes. |
| `CrossMargin.Desk.ApplyFunding` | venue/include/flox-venue/cross_margin.h:99-128 | Funding is paid and then all of that holds at the balances it left. |
| `CrossMargin.WinnerLeftBelow` | venue/include/flox-venue/cross_margin.h:520-566 | A winner up 100 on one leg and down 50 on another meets its margin before the first is closed for a bankrupt account and not after. |
| `CrossMargin.Desk.Drive` | venue/include/flox-venue/cross_margin.h:86-128 | Over every run of deposits, fills, funding, marks and pauses, with the liquidations, collateral conversions and auto-deleveraging they trigger, each asset's total over all accounts changes only by deposits. |
| `RateLimit.AdmitBounded` | include/flox/execution/rate_limit_policy.h:120-164 | Admitting what fits keeps every window of the length, past and future, within capacity. |
| `RateLimit.Evict` | include/flox/execution/rate_limit_policy.h:140-144 | Dropping aged charges leaves exactly the weight charged in the window. |
| `RateLimit.WaitExact` | include/flox/execution/rate_limit_policy.h:216-245 | One bucket fits the charge from the computed wait on and not a nanosecond sooner. |
| `RateLimit.RateLimitPolicy.TryConsume` | include/flox/execution/rate_limit_policy.h:120-164 | Admits exactly when no ban is active and every bucket the action is due to has room, by its whole history, within the capacity scaled and rounded down: orders are due to trading buckets at their submit, cancel or replace weight, a query to the buckets of what it asks about; charges all of them or none, and moves the reject count and the ban as configured. |
| `RateLimit.RateLimitPolicy.RetryAfter` | include/flox/execution/rate_limit_policy.h:200-247 | The rest of an active ban, otherwise exactly the time from which every bucket that could ever take the action has room; a bucket it is too heavy for adds nothing. |
| `RateLimit.Run` | include/flox/execution/rate_limit_policy.h:120-164 | Over every run with non-decreasing time, no bucket admits more than its capacity in any window and its history is what was admitted; under a ban nothing is admitted and the ban is not extended, and a new one starts only at the refusal that completes the configured number in a row and lasts the configured time. |
| `RateLimit.Govern` | include/flox/execution/rate_limit_policy.h:60-118 | The same for a policy configured from scratch: every window of every bucket is within its capacity and every ban is earned. |
| `RateLimit.AskThenTry` | include/flox/execution/rate_limit_policy.h:200-247 | Asking and then trying at any later time succeeds if and only if the advertised time has come. |
| `RateLimit.Unaffordable` | include/flox/execution/rate_limit_policy.h:200-247 | An action heavier than a bucket never fits, whatever wait is advertised. |
| `Journal.Le4RoundTrip` | venue/include/flox-venue/journal.h:460-502 | The four-byte length reads back. |
| `Journal.JudgeWhole` | venue/include/flox-venue/journal.h:640-755 | A whole record reads back as its entry, a short ladder with unnamed rungs zeroed; its body has the type's size, every byte of a ladder's head and named rungs, and every byte of another command, is the byte written, and every later one is zero. |
| `Journal.JudgeTorn` | venue/include/flox-venue/journal.h:640-690 | A file that ends inside one of our records is torn there. |
| `Journal.LoadCut` | venue/include/flox-venue/journal.h:622-755 | For every entry list and every cut, the load returns exactly the entries whose records lie wholly before the cut, says intact only on a boundary, and never refuses the file; each entry comes back with its time, its tag and every byte of its body, of a ladder the head and the rungs it names and zeros behind them. |
| `Journal.CutSurvives` | venue/include/flox-venue/journal.h:622-755 | The entries a cut leaves are the first ones whose records end before it, and each survives byte for byte, of a ladder the named rungs. |
| `Journal.ReplayedSurvives` | venue/include/flox-venue/messages.h:318-335 | What a load makes of an entry keeps the head and the first min(levels, 8) rungs of a ladder, zeroes what is behind them, and keeps every other body whole. |
| `Journal.WholeFile` | venue/include/flox-venue/journal.h:948-953 | Uncut, every entry comes back, byte for byte in the same sense. |
| `Journal.LoadDamaged` | venue/include/flox-venue/journal.h:674-749 | A record whose checksum fails, whose header names more bytes than any body, or whose intact body is not its command's size or its ladder's rungs returns the records before it, or refuses the file when there is none; at the end of the file it reads as torn. |
| `Journal.LoadForeign` | venue/include/flox-venue/journal.h:717-735 | An intact record under another stamp or an unknown tag refuses the file, however much was read before it. |
| `Journal.Writer.Append` | venue/include/flox-venue/journal.h:460-502 | Appends exactly one framed, checksummed record that carries every byte that must come back. |
| `Journal.LoadReported` | venue/include/flox-venue/journal.h:622-755 | The reading loop computes the load function on any bytes. |
| `Journal.CrashAndLoad` | venue/include/flox-venue/journal.h:460-755 | Writing record by record, cutting at any byte and loading gives back the whole records before the cut, every byte that mattered in place. |
| `Journal.LadderSize` | venue/include/flox-venue/messages.h:318-335 | A ladder's body is its head and exactly the rungs it names, up to the eight of the block: a rung is written if and only if it is named. |
| `DepthBook.ShiftLadder` | include/flox/book/nlevel_order_book.h:956-982 | The in-place shift moves every level by the distance, drops what falls off and zeroes what opens up. |
| `DepthBook.ShiftKeeps` | include/flox/book/nlevel_order_book.h:886-954 | Shifting against the base leaves every level that stays in the window at its tick. |
| `DepthBook.WindowCovers` | include/flox/book/nlevel_order_book.h:886-905 | The new window covers whatever fits it, with the room to spare shared evenly at both ends, for negative ticks and truncating division too; what does not fit is covered from its low end. |
| `DepthBook.SnapsAway` | include/flox/book/nlevel_order_book.h:745-750 | A stored tick is never better than the quote and less than one tick worse. |
| `DepthBook.DepthSide.Next` | include/flox/book/nlevel_order_book.h:984-996 | The first non-zero level at or above the start. |
| `DepthBook.DepthSide.Prev` | include/flox/book/nlevel_order_book.h:998-1014 | The last non-zero level at or below the start. |
| `DepthBook.DepthSide.Set` | include/flox/book/nlevel_order_book.h:346-440 | One level changes and the best, lowest and highest caches stay exact. |
| `DepthBook.Book.ReanchorWithData` | include/flox/book/nlevel_order_book.h:886-954 | The window moves where it should and no level is lost or moved. |
| `DepthBook.Book.ReanchorForDelta` | include/flox/book/nlevel_order_book.h:834-884 | The window moves exactly when everything live and everything that missed it fit one window, and then covers all of it; no level is lost or moved either way. |
| `DepthBook.Book.ApplyDelta` | include/flox/book/nlevel_order_book.h:343-440 | Whatever a delta of any shape does not name stays; what it names is stored if and only if it lies in the window the delta leaves, which is given exactly. |
| `DepthBook.Book.ApplyLevel` | include/flox/book/nlevel_order_book.h:343-440 | One level lands exactly when it is a removal, lies in the window, or fits one window with everything live. |
| `DepthBook.Book.ApplySnapshot` | include/flox/book/nlevel_order_book.h:298-338 | A snapshot replaces the book, and one no wider than the window is stored whole. |
| `DepthBook.Book.BestTick` | include/flox/book/nlevel_order_book.h:769-787 | The cached best is the highest bid or lowest ask, none exactly when the side is empty. |
| `DepthBook.Book.Follow` | include/flox/book/nlevel_order_book.h:834-884 | Over every run of one-level deltas whose levels fit one window with what is live, the arrays are a plain tick-to-quantity map. |
| `DepthBook.CentredAway` | include/flox/book/nlevel_order_book.h:834-905 | A delta whose levels fit one window with everything live loses one of them. |
| `FixResend.ServeResend` | venue/include/flox-venue/fix_session.h:651-687 | The loop produces the served frames of the clamped range, and nothing for an empty one. |
| `FixResend.LogSlice` | venue/include/flox-venue/session_registry.h:560-577 | The logged events within the range, in log order. |
| `FixResend.ServedTiles` | venue/include/flox-venue/fix_session.h:651-687 | When everything logged encodes, replays and gap fills cover the range exactly once, in order. |
| `FixResend.ServedPasses` | venue/include/flox-venue/fix_session.h:376-412 | A peer anywhere in the range finishes one past its end, having accepted each logged event at or above its position once, and asks for nothing. |
| `FixResend.HoleBlocks` | venue/include/flox-venue/fix_session.h:669-682 | A peer never gets past a logged event that has no FIX form. |
| `FixResend.ResendCompletesIff` | venue/include/flox-venue/fix_session.h:651-687 | The peer gets past the range if and only if everything logged from its position on encodes. |
| `FixResend.Recover` | venue/include/flox-venue/fix_session.h:651-706 | A hole recovered end to end: request, answer and gate bring the peer past the last number sent exactly then, with every missed event accepted once in order. |
| `FixResend.Inbound.OnMessage` | venue/include/flox-venue/fix_session.h:389-412 | Accepts exactly the expected number, drops a duplicate marked as one, logs out on a low or missing number, and asks at most once per heartbeat for a hole. |
| `FixResend.Inbound.OnGapFill` | venue/include/flox-venue/fix_session.h:615-631 | Moves the expectation forward and never back; beyond a hole it only asks. |
| `FixResend.Listen` | venue/include/flox-venue/fix_session.h:380-645 | Over any inbound session in time order, up to the first message that logs the peer out, exactly the messages at their turn are accepted, with rising numbers between hard resets; every input beyond a hole is met by a request for the missing number unless one younger than a heartbeat stands; two requests without a hard reset between them are a heartbeat apart or ask from a higher number. |
| `DecimalWire.Parse` | include/flox/util/decimal_wire.h:53-104 | The parsing loops answer the value of a well-formed text that fits, and nothing otherwise. |
| `DecimalWire.ParseExact` | include/flox/util/decimal_wire.h:53-104 | Parsing accepts a text with a value if and only if the text is an unsigned decimal of at most eight fraction digits with exactly that value in range. |
| `DecimalWire.Append` | include/flox/util/decimal_wire.h:113-146 | The printing loops append the text of the value. |
| `DecimalWire.RoundTrip` | include/flox/util/decimal_wire.h:53-146 | A printed value parses back to itself if and only if it is non-negative and in range. |
| `DecimalWire.TextShortest` | include/flox/util/decimal_wire.h:113-146 | Of all texts of a value the printed one is the shortest. |

## Left out

- Sockets, acceptors, threads, TLS, files and fsync: a journal file is a byte sequence, a session's wire a frame sequence, and every section under a lock is one atomic step.
- The matching engine around the matcher (settlement, stops, pegs, auctions, checkpoint restore, last-look resolution, reservation hooks): only the resting of a residual is modelled.
- Session registry, shard and order-entry codecs beyond the log slice; FIX logon, heartbeats, timers and text encoding.
- Integer width: prices, quantities and amounts are unbounded, so 64-bit and 128-bit overflow and the 32-bit sum in the rate limiter's room test are not modelled; the divide-first branch of the notional is.
- Trade identifiers, symbols, send time stamps, diagnostic counters and liquidation notifications in emitted events.
- The recovering subscriber's retry and backoff loop, and its queue of messages made ready before a snapshot.
- Fee schedules, funding-rate conversion from floating point, pre-trade margin checks and withdrawals; the capacity scale of the rate limiter is a real number.
- `std::map` is a best-first list of levels and a 64-bit bitmap word the set of its one bits; a ladder side's or depth side's levels, bits and caches are one object.
- Configuration after construction: margins, schedules and account groups are fixed when the desk or the matcher is made.
- Struct layouts of journaled commands other than the quote ladder: a command is its tag and its bytes.
- Canned exchange profiles of the rate limiter, the depth book's consume and display functions, and prices in the depth book (deltas carry ticks; `TickOf` maps a price to its tick).
- Matcher.Matcher.Cross: proved on the reference book only; the ladder is tied to that book by the differential run rather than under the matcher.
- Aggressor.Sweep: a fill-limit hook is assumed to answer between zero and the quantity asked for, as the engine's own does (`FillRisk.MeasuredOk`), and to be a function of the tape so far; the resting-hold hook is not modelled.
- Crossing.CrossHonest: the resting-hold hook (venue/include/flox-venue/matcher.h:313, 639), which can reshape the book in the middle of a sweep, is not modelled.
- Audit.SweepInOrder: likewise without the resting-hold hook.
- FillRisk.CapsKept: a maker's fill is booked to its account on the side opposite the taker's, whatever side its record carries. The same goes for `FillRiskProRata.CapsKeptProRataIff`; `FillRiskPlan.FlatPlanKeeps` asks that the makers in range carry that side, because the plan moves positions by the record's side.
- Ladder.LadderBook.AddResting: an id that already rests is excluded, as both books require of their caller.
- MatchingBook.MatchingBook.AddResting: likewise for an id that already rests.
- Differential.Run: orders are filed under their own side and on a tick; `LadderLimits.FiledAlikeIff` shows that the two books file alike exactly then.
- MdDistribution.Serve: one publisher epoch; a restart under an open subscription is `MdDistribution.FollowRestart`, one while a request is on its way `MdDistribution.RestartInFlight`.
- MarketData.Publisher.OnEvent: assumes the engine reuses no id while it is shown, reports a completed order at display zero, and shows nothing again for an order shown at zero; depth is a plain price-to-quantity map rather than the windowed book, and with a ring of capacity zero, where the source reads the back of an empty ring in its status and derivatives handlers, the model stores the status.
- PublicFeed.Engine.Submit: fills held for last look are never resolved, so a held id stays taken; stops, modifications, auctions and a refusal by the book's capacity are not part of the run.
- PublicFeed.Engine.Withdraw: likewise, so a held part is not restored before its order is cancelled (venue/include/flox-venue/engine/orders.inl:521).
- GapDetector.ResetTracks: a reset with delivery, in the same epoch and not behind the stream; a reset behind it is `StaleResetRepeats`, one that changes the epoch `ResetEpochIff`.
- FixResend.ServeResend: the log is ascending wherever a tiling or completion is claimed.
- CrossMargin.Desk.CheckLiquidations: nothing is claimed of the venue account's own margin, and what a deleveraged account is worth afterwards is not stated where a collateral schedule discounts quote.
