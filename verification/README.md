# Cotrader in Dafny

Cotrader spreads one order over a price range (a *ladder*), sends the resulting limit orders to Toss or Upbit, and keeps
its own tables in step with what the exchanges report. This project models the four parts of it that decide whether
money is where the operator thinks it is, and proves what the code and its documentation promise about them.

1. **Ladder arithmetic** (`market.dfy`, `ladder.dfy`, `ladder_theorems.dfy`, `ladder_bounds.dfy`, `ladder_exact.dfy`,
   `ladder_passes.dfy`, `pricing.dfy`): tick grids, the division of a holding or a budget, the two loops that hand out what
   does not divide, where a ladder's prices lie, and `Build` as a whole. The functions are the specification; the methods are the loops of the source, each
   proved to compute its function.
2. **Order lifecycle** (`records.dfy`, `normalize.dfy`, `outcome.dfy`, `protocol.dfy`, `operations.dfy`, `executor.dfy`
   and the files that prove things about them): submitting, reconciling, canceling and resolving orders over three
   tables, two exchanges and any number of crashes.
3. **Pocket transfers** (`transfers.dfy`, `transfer_service.dfy`): the same write-ahead idea over two balances.
4. **Two Upbit adapters' duties**: the request form that is signed against the one that travels (`canonical.dfy`), and the
   paged listing that reconciliation relies on (`paging.dfy`).

## How the lifecycle is modelled

The unit of time is a *step*: one committed database write, or one request to an exchange. `Protocol.World` holds the
tables and a history that the tables do not keep: every placement request, every report acted on, every order written
off by the operator, the plan each ladder's rows came from and the commission quoted for it, and the ladders whose terms
were typed over after they were sent. `Protocol.Do` is the effect of one step.

`Operations` says, for each operation and all the answers it gets, which steps it takes when nothing interrupts it. A
crash, or a write that fails, leaves a prefix (`Protocol.Take`). The process is single-threaded, so a run is a sequence
of operations, each cut anywhere: `Runs.Run`. `Execution.Executor` is the code itself, a class whose methods work on
in-memory copies, commit row by row and return early where the source does; each method is proved to follow its script
for as many steps as the process lives, and `PerformAll` to produce exactly `Run`.

`Steps.Safe` says when a single step may be taken. Every safe step keeps `Protocol.Inv` and undoes nothing
(`Protocol.Evolves`); every operation takes only safe steps; hence both hold over every run, for any answers at all.
`guarantees.dfy`, `exposure.dfy`, `visibility.dfy`, `listing.dfy` and `cycle.dfy` draw the conclusions.

What an operation does, as opposed to what it never does, is in `submission.dfy`, `withdrawal.dfy` and `visit.dfy`: for each
operation that runs to its end, which rows and ladders change and to what, in terms of the tables and the answers alone.

What is taken for granted about the outside world, and only where a statement names it:

- Answers are arbitrary, with two exceptions that hold throughout: reports have passed an adapter's `normalize`
  (`Records.Normalized`), and they carry an exchange id. The unique indexes are those of the tables: (ladder, rung) and the
  non-null broker id. Row ids are never reused.
- `math.Pow` in the price spacing is an input (`Ladder.Powers`). Where order matters, `LadderTheorems.Spaced` states what
  is needed of it: the raw prices move weakly away from the base and stay within the endpoints' side.
- `Visibility.Faithful`: an accepted request created our order under the id returned, an unambiguous refusal means that
  it was not created, an order carrying our identifier is ours, and the operator resolves only by what they found.
- `Guarantees.Truthful`: an exchange never takes back a fill. `Guarantees.Exact`: reports are for the quantity we sent.
- `Listings.OneSnapshot`, `ToldTruly`, `AboutOurs`: listing and detail come from one snapshot, status and amounts follow from the
  fill, and the order looked up is the one we sent.
- `Cycles.Reads`: for `CycleShowsTheFills` only, the exchange answers with the fill it has and the writes go through.
- `Transfers.Honest`: an exchange confirms only what it moved and definitely refuses only what it will never move.

Decimals are scaled integers: prices in 10^-8, quantities in units of the venue (a share, or 10^-8 of a coin), cash and the
operator's total in 10^-18, unsnapped prices as reals. `QuoRem` truncates and `DivRound` rounds half away from zero, as in
the decimal library. All places where a value could be negative are guarded as in the source.

## Where the code and its documentation differ

The model follows the code.

- docs/ladder.md line 67 says that a buy never locks more than its budget because every division truncates. The share of
  one rung is rounded half away from zero (internal/ladder/ladder.go line 282). `BuyCanExceedTotal` is a built ladder that
  spends more than its total. `BuyStaysWithinBudgetIff` gives the exact condition for every ladder, on its budget, its rung
  count and its prices, and `BuiltBuyIsWithinTotalIff` the same for the plan `Build` returns, commission included;
  `BuyCommitsAtMostTotal` and `BuyExposure` bound the excess.
- internal/ladder/ladder.go lines 165-167 say that the keyboard hides rung counts that would be refused.
  `MaxRungsCanBeRefused` is a count it names and `Build` refuses. `SellBuildsIffWithinMaxRungs` says that for a sell the claim
  is exact; `MaxRungsHoldsIff` says exactly when a count it names builds a buy, and `BuyBuildsIff` exactly when any buy builds.
- internal/ladder/ladder.go lines 312-315 say that the cash loop settles in a pass or two. `TwoPassesSufficeIff` says exactly
  for which requests that holds of every total, and `WideRangeNeedsManyPasses` gives, for every m, a request that takes m.
- docs/ladder.md does not say so, but a sent ladder's stored base, offsets or total can still change: the keypad
  (internal/app/draft.go lines 222-254) saves a typed number without the check that the ladder is a draft, which every
  other question of the flow makes. `KeypadRetypesIff` says exactly when; no order moves, and `Planned`, `ClosedStaysClosed`
  and the exposure bounds name what stays true then.
- internal/orders/executor.go lines 34-35 say that Stopped is empty on success. It is empty as well when a request is refused
  without a word; the ladder is then OPEN, and since only a FAILED one is resumed, its remaining rungs cannot be sent
  (`StopIsRecorded`, `WordlessRefusalStrands`).
- README.md line 28 says that what is left over goes to the rung nearest the base. It goes to the far end
  (`SellConservesQuantity`, `LeftoverAvoidsDearest`), as docs/ladder.md line 46 says.
- internal/broker/order.go lines 14-15 say that adapters report four statuses. The Toss adapter also reports a pending cancel
  and a rejection, and the model admits both.

## Model

| member | source | states |
|---|---|---|
| Market.TickUpIsLeast | internal/market/market.go:158-170 | Rounding up gives the least price on the venue's grid that is not below the one asked for, also when it lands in a higher tier. |
| Market.TickDownIsGreatest | internal/market/market.go:158-170 | Rounding down gives the greatest grid price not above the one asked for, or zero when the grid has none. |
| Market.TickIsMonotone | internal/market/market.go:133-170 | Snapping keeps the order of prices in either direction and across tiers. |
| Market.GridIsFixedPoints | internal/market/market.go:142-170 | A price is on the grid if and only if snapping leaves it alone, in either mode; so snapping is idempotent. |
| Market.MinQuantityIsThreshold | internal/market/market.go:200-216 | MinQuantity is the exact threshold: an order is large enough if and only if it has at least that quantity. |
| Market.QuantityForIsGreatest | internal/market/market.go:227-235 | QuantityFor is the most the amount buys: a quantity is affordable if and only if it is at most that. |
| Market.MinQuantityFalls | internal/market/market.go:202-216 | A dearer price never needs a larger minimum quantity, which is why the rung nearest the base binds a sell. |
| Market.SymbolNamesOneVenue | internal/market/market.go:249-272 | No symbol is valid on two venues, so a pair resolves to one. |
| Market.AmountIsPriceTimesQuantity | internal/market/market.go:218-235 | The unit and the scale of each venue fit together: an amount is the price times the quantity in whole shares or coins. |
| Market.SmallestOrders | internal/market/market.go:237-247 | An order is large enough on Upbit from 5000 won or half a dollar, and on Toss from one share. |
| Market.GateIff | internal/upbit/trading.go:256-261 | An adapter lets a request through if and only if its symbol is valid, its price is on the venue's grid, and its quantity reaches MinQuantity; the Toss gate is internal/toss/trading.go 254-259. |
| Market.KrwTickBoundaries | internal/market/market.go:85-100 | The tick on either side of each bound of the won market from ten won up. |
| Market.KrwPennyTickBoundaries | internal/market/market.go:85-100 | The same below ten won. |
| Market.UsdtTickBoundaries | internal/market/market.go:101-108 | The same for the dollar market. |
| Market.SomeSymbols | internal/market/market.go:249-272 | Symbols the tests accept and refuse, venue by venue. |
| Ladder.GeometricPrices | internal/ladder/ladder.go:219-236 | The spacing loop returns both endpoints untouched and the interior from the powers it is given. |
| Ladder.SnapPrices | internal/ladder/ladder.go:238-254 | The snapping loop computes Snap. |
| Ladder.SpreadQuantity | internal/ladder/ladder.go:301-310 | The in-place loop hands out one unit each from the far end inwards, as HandOut specifies. |
| Ladder.SpreadCash | internal/ladder/ladder.go:312-332 | The nested in-place loops terminate and leave the rungs that SpendOut specifies. |
| Ladder.SplitQuantity | internal/ladder/ladder.go:273-279 | Splitting a holding in place gives Sized. |
| Ladder.SplitCash | internal/ladder/ladder.go:281-288 | Splitting a budget in place, with the running sum of what is spent, gives Sized. |
| Ladder.SizeRungs | internal/ladder/ladder.go:267-299 | Sizing refuses with the first rung below the minimum order and the count to reduce to, and otherwise returns all rungs. |
| Ladder.BuildPlan | internal/ladder/ladder.go:194-217 | The whole of Build with its error cases, in the order the source checks them. |
| Ladder.SumQuantity | internal/ladder/ladder.go:83-90 | The quantity across every rung. |
| LadderTheorems.SnapLosesOnlyRepeats | internal/ladder/ladder.go:238-254 | A price survives snapping if and only if it is positive and the tick of some raw price. |
| LadderTheorems.SnapIsStrict | internal/ladder/ladder.go:238-254 | Monotone raw prices become strictly monotone ones, so dropping adjacent repeats drops every repeat. |
| LadderTheorems.FirstPrice | internal/ladder/ladder.go:196-204 | The rung nearest the base is the snapped start, prices move strictly away from it, and there are at most fifty. |
| LadderTheorems.HandOutIsSuffix | internal/ladder/ladder.go:301-310 | Leftover units form a suffix of the ladder, one each, and all of them are handed out. |
| LadderTheorems.SellConservesQuantity | internal/ladder/ladder.go:273-279 | A sell's quantities sum to exactly the rounded holding; each rung has the even share, plus one unit on exactly the last few. |
| LadderTheorems.PassConservesCash | internal/ladder/ladder.go:319-327 | What a pass spends is what the rungs gained in value. |
| LadderTheorems.SpendOutConservesCash | internal/ladder/ladder.go:316-332 | The loop spends cash only on rungs, never overdraws it, and keeps prices and numbering. |
| LadderTheorems.SpendOutIsMaximal | internal/ladder/ladder.go:312-332 | When the loop stops, the cash left cannot buy one unit anywhere. |
| LadderTheorems.PassIsSuffix | internal/ladder/ladder.go:319-327 | On falling prices a pass buys on a suffix, and what it leaves is below the price of the next rung in. |
| LadderTheorems.LeftoverAvoidsDearest | internal/ladder/ladder.go:261-266 | The dearest rung never receives a leftover unit, no rung shrinks, and quantities still do not fall with price. |
| LadderTheorems.NarrowRangeSettlesInTwoPasses | internal/ladder/ladder.go:312-332 | At most two passes buy anything when the dearest price is at most twice the cheapest. |
| LadderTheorems.TwoPassesIff | internal/ladder/ladder.go:312-332 | On strictly falling prices, two passes spend any cash below the cost of a full pass if and only if the dearest is at most twice the cheapest. |
| LadderPasses.EveryLeftoverArises | internal/ladder/ladder.go:281-288 | Every amount below the cost of a full pass is what the even split of some budget leaves over, and of arbitrarily large ones. |
| LadderPasses.TwoPassesSufficeIff | internal/ladder/ladder.go:312-332 | Over all totals of a request for which Build succeeds, the leftover is spent in at most two buying passes if and only if the dearest price is at most twice the cheapest. |
| LadderPasses.WideRangeNeedsManyPasses | internal/ladder/ladder.go:312-315 | For every m there is an Upbit request that Build accepts and whose even split leaves cash that takes exactly m buying passes. |
| Pricing.BuiltPlanSpansTheRange | internal/ladder/ladder.go:119-128 | A built ladder starts at the least price the exchange takes not below base(1+start) on a sell, and at the greatest not above base(1-start) on a buy; it ends likewise at the range's other end, on a buy where the exchange takes a price that low; every rung lies between, and there is one exactly where a step of the request is taken. |
| Pricing.InvalidIff | internal/ladder/ladder.go:130-163 | A request is invalid if and only if its symbol, count, total or fee is, or its range does not run away from a positive base through positive prices. |
| Pricing.NoPricesIff | internal/ladder/ladder.go:196-204 | A valid request finds no price if and only if the exchange takes none of its steps. |
| Pricing.TooSmallNames | internal/ladder/ladder.go:289-299 | A request refused for size names the first rung that is too small and the count MaxRungs gives. |
| LadderBounds.BuyOverspendsByDustOnly | internal/ladder/ladder.go:281-288 | A buy's order amounts exceed the budget by at most half of 10^-18 for each rung. |
| LadderExact.BuyStaysWithinBudgetIff | internal/ladder/ladder.go:281-288 | A ladder's amounts stay within its budget unless the shares, cut to whole units, together exceed it and every price divides its share without remainder: exactly then they do not. |
| LadderExact.BuiltBuyIsWithinTotalIff | internal/ladder/ladder.go:101-110 | What a built buy locks, commission included, is within its total under exactly that condition. |
| LadderExact.GetsAUnitIff | internal/ladder/ladder.go:312-332 | On falling prices a rung gains a leftover unit if and only if the leftover buys one unit of it and of every rung beyond it. |
| LadderExact.EveryRungGetsItsShare | internal/ladder/ladder.go:281-288 | No rung of a buy could hold one unit more out of its own even share. |
| LadderExact.BuyBuildsIff | internal/ladder/ladder.go:267-299 | A valid buy builds if and only if it has a price, its share covers the minimum order at the first rung, and every other rung is covered by the share or reached by the leftover. |
| LadderExact.TossBuyBuildsIff | internal/ladder/ladder.go:267-299 | On Toss a buy builds if and only if its share buys one share at the dearest price. |
| LadderExact.MaxRungsHoldsIff | internal/ladder/ladder.go:165-192 | A buy whose rung count MaxRungs names builds if and only if every rung is covered by the share or reached by the leftover. |
| LadderBounds.GridBudgetIsNeverExceeded | internal/ladder/ladder.go:281-288 | A budget that is a multiple of 10^-16 is never exceeded with up to fifty rungs. |
| LadderBounds.BuyCommitsAtMostTotal | internal/ladder/ladder.go:101-110 | What a buy locks, commission included, fits the total up to that dust, and exactly on a gridded budget. |
| LadderBounds.SellCommitsAtMostTotal | internal/ladder/ladder.go:101-110 | What a sell locks is the rounded holding, which is within the total. |
| LadderBounds.BuyLeavesNothingOnTheTable | internal/ladder/ladder.go:312-332 | What a built buy leaves unspent cannot buy one unit of any of its rungs. |
| LadderBounds.BuildShape | internal/ladder/ladder.go:194-217 | A built plan is for a valid request, has its rungs numbered from the base outwards, and each is a valid order. |
| LadderBounds.BuiltRungsAreSubmittable | internal/upbit/trading.go:256-261 | Every built rung passes the submitting adapter's gate on symbol, size, unit and price grid; the Toss gate is internal/toss/trading.go 254-259. |
| LadderBounds.SellBuildsIffWithinMaxRungs | internal/ladder/ladder.go:165-192 | A valid sell builds if and only if its merged rung count is within MaxRungs. |
| LadderBounds.BuiltBuyIsWithinMaxRungs | internal/ladder/ladder.go:165-192 | A buy that builds on a gridded budget has at most MaxRungs rungs. |
| LadderBounds.TossBuyBuildsWithinMaxRungs | internal/ladder/ladder.go:165-192 | On Toss the converse holds as well. |
| LadderBounds.UpbitBuyBuildsWithMargin | internal/ladder/ladder.go:165-192 | A rule of thumb beside the exact BuyBuildsIff: an Upbit buy builds when the budget covers the minimum amount and one unit of the dearest price for each rung. |
| LadderBounds.BuyRungs | internal/ladder/ladder.go:281-288 | A buy's first rung holds exactly its even share, and down the ladder prices fall while quantities do not. |
| LadderBounds.SplitImprovesTheFill | internal/ladder/ladder.go:256-266 | The even split pays a buy, and earns a sell, an average at least as good as the plain mean of the rung prices. |
| LadderBounds.BuyCanExceedTotal | internal/ladder/ladder.go:281-288 | An instance: Build accepts two Toss rungs at 5 and 2.5 that commit 10 out of a total of 9.999999999999999999. |
| LadderBounds.MaxRungsCanBeRefused | internal/ladder/ladder.go:165-192 | An instance: MaxRungs names two rungs for 10000 won, and Build refuses the second. |
| Normalize.NormalizeUpbit | internal/upbit/normalize.go:33-83 | Evidence is accepted if and only if it is coherent, in a known state and not done with volume left; each state gives its status, a FILLED report is full, and the amount is what the trades were worth. |
| Normalize.NormalizeToss | internal/toss/normalize.go:44-90 | Evidence is accepted if and only if its status is known and it is coherent, with an amount for any fill; each status is its own, every field is the answer's, costs are final only when both parts are confirmed, and each refusal names its cause. |
| Outcomes.SummarizeRows | internal/orders/outcome.go:36-56 | The accumulating loop computes Summarize. |
| Outcomes.FilledIffSomeFill | internal/orders/outcome.go:36-56 | The total fill is positive if and only if some rung filled. |
| Outcomes.CompleteIffEveryRungIsFull | internal/orders/outcome.go:58-61 | A ladder is complete if and only if something filled and every rung filled its quantity. |
| Outcomes.RatioIsAShare | internal/orders/outcome.go:89-95 | The ratio shown is between zero and one, and one for a complete ladder. |
| Outcomes.SummaryAddsUp | internal/orders/outcome.go:36-56 | Each figure of an outcome is the sum of it over the rungs; costs are final if and only if those of every rung that traded are; and the rungs that traded are counted. |
| Outcomes.RatioIsNearest | internal/orders/outcome.go:89-95 | The ratio shown is the nearest to the exact one at eight places, half rounding up, and zero when nothing was ordered. |
| Steps.SafeStep | internal/store/repository.go:101-160 | Each table write or exchange request, taken when it is safe, keeps the whole invariant and undoes nothing. |
| Steps.OnlyFirstBatchFits | internal/store/repository.go:101-135 | A second batch of rows for the same ladder always meets the unique rung index, so rows come from one plan only. |
| Safety.SendIsSafe | internal/orders/executor.go:82-114 | Sending rung after rung is safe for any number of answers of any kind, and wherever it stops. |
| Safety.SubmitDraftIsSafe | internal/app/actions.go:37-71 | Pricing a draft, inserting its rows and submitting them is safe, and so is resuming a stopped ladder. |
| Safety.SettleIsSafe | internal/orders/reconcile.go:196-220 | Closing a ladder is safe: it happens only when nothing of it can change, with the state its fills call for. |
| Safety.TotalFillIsSomeFill | internal/orders/reconcile.go:211-215 | The sum that settling looks at is positive if and only if some row of the ladder filled. |
| CancelSafety.CancelLadderIsSafe | internal/orders/executor.go:164-213 | Withdrawing a ladder is safe whatever each cancel request is answered. |
| CancelSafety.CancelOrderIsSafe | internal/orders/executor.go:215-240 | Withdrawing one rung is safe. |
| CancelSafety.ResolveMissingIsSafe | internal/orders/resolve.go:67-99 | Writing an order off is safe; only an unlinked order in doubt can be. |
| ReconcileSafety.ApplyIsSafe | internal/orders/reconcile.go:129-194 | Taking a report over is safe whatever it says: it parks, is taken, or is ignored as older. |
| ReconcileSafety.ReconcileIsSafe | internal/orders/reconcile.go:20-68 | A whole cycle is safe for any listings, replies and failing writes. |
| ReconcileSafety.CycleVisitsOnce | internal/orders/reconcile.go:21-52 | A cycle visits each active order at most once, so copies read at its start never go stale. |
| ReconcileSafety.ResolveFoundIsSafe | internal/orders/resolve.go:12-65 | Adopting an order matched by hand is safe; a wrong or taken one is never adopted. |
| Runs.RunIsSafe | internal/app/app.go:66-72 | After every run, cut anywhere, the invariant holds, and no run undoes what an earlier state settled. |
| Runs.DraftingLeaves | internal/app/draft.go:39-79 | Starting a draft adds one; editing replaces its request if it is still a draft, for the venue and side it was started for, and otherwise does nothing. |
| Runs.KeypadLeaves | internal/app/draft.go:222-290 | A press puts the number where it was typed for, in that field's unit, a sell keeping whole units; a negative number, or zero for a price or a total, changes nothing. |
| Runs.OthersAreQuiet | internal/orders/reconcile.go:94-113 | Only turning a draft into orders, or resuming one, sends or inserts anything: recovery never sends again. |
| Runs.RunSendsWaiting | internal/orders/executor.go:61-70 | Over any run, whatever is sent was waiting to be sent at its start or did not exist then. |
| Runs.RunKeepsBuilt | internal/app/actions.go:47-70 | Every plan whose rows were ever inserted is one that Build returned, for the commission the exchange quoted on a buy and none on a sell. |
| Submissions.SubmitsIff | internal/orders/executor.go:45-73 | Submitting takes a step if and only if the ladder is not over, its exchange is connected and has no order in doubt, and a rung waits. |
| Submissions.SubmitLeaves | internal/orders/executor.go:75-126 | A submission confirms waiting rungs in order up to the first that is refused, unanswered or given a taken id; it changes exactly their rows, asks once for each as its row says, and leaves the ladder OPEN, FAILED with the reason, or PLACING. |
| Submissions.StopIsRecorded | internal/orders/executor.go:116-123 | After a run to its end the ladder is FAILED with the trimmed reason if and only if a request was refused with a reason, and otherwise OPEN without one. |
| Submissions.WordlessRefusalStrands | internal/app/actions.go:40-46 | After a refusal with an empty reason the rungs still waiting cannot be sent any more. |
| Submissions.StillToSend | internal/orders/executor.go:61-73 | After a run that stopped, exactly the rungs beyond the one that stopped it still wait. |
| Submissions.ResumeSendsTheRest | internal/app/actions.go:40-43 | Submitting the draft of a FAILED ladder again, once its venue is settled, sends exactly those rungs in order. |
| Submissions.DraftLeaves | internal/app/actions.go:44-71 | A draft is built at the quoted commission, its rows inserted and submitted; nothing happens if a buy's terms cannot be read, the request cannot be built, or the ladder has rows already. |
| Submissions.ReportIsTrue | internal/orders/executor.go:30-36 | The counts and the reason that Submit returns are those of what was confirmed, what was not, and why. |
| Withdrawals.SettleLeaves | internal/orders/reconcile.go:196-220 | Settling closes a live ladder with no active order, DONE if and only if one filled, keeps its reason, and changes nothing else. |
| Withdrawals.CancelLeaves | internal/orders/executor.go:164-213 | Row by row: unsent rungs are CANCELED as dropped; resting ones are PENDING_CANCEL without a reason if and only if the cancel was accepted, and otherwise keep their status with the trimmed reason; rungs in doubt, waiting or closed are unchanged; then the ladder is settled. |
| Withdrawals.CancelOneLeaves | internal/orders/executor.go:215-240 | The same for one rung, except that a refusal changes nothing. |
| Withdrawals.TallyCounts | internal/orders/executor.go:155-162 | The counts that CancelLadder returns are the numbers of cancels accepted, rungs dropped and orders blocked. |
| Visits.CycleLeavesRow | internal/orders/reconcile.go:70-194 | After a cycle, the row of each order visited, for any answer: when it is left alone, parked and why, adopted, or updated, with its status, reason, money and notice. |
| Visits.CycleLeavesTheRest | internal/orders/reconcile.go:20-52 | Rows of closed orders, and of venues not connected or not listed, are left as they are. |
| Visits.ResolveFoundLeaves | internal/orders/resolve.go:12-65 | An order in doubt adopts the one named if and only if no other order has it and symbol, side, quantity and price all agree; then its report is taken over and the ladder settled. |
| Visits.ResolveMissingLeaves | internal/orders/resolve.go:67-99 | An order is written off if and only if it is in doubt and unlinked; then the ladder is settled. |
| Guarantees.PlacedAtMostOnce | internal/orders/executor.go:82-114 | In every run no order is placed twice, and the requests of a ladder go out in strictly increasing rung order, so no rung is either. |
| Guarantees.NothingNearerStillWaits | internal/orders/executor.go:82-89 | Once a rung may have been sent, nothing nearer the base is still waiting. |
| Guarantees.InFlightAlone | internal/orders/executor.go:128-142 | No request ever leaves while another order of the venue is in doubt, and at most one order for each venue is in doubt with no exchange id. |
| Guarantees.DraftWasNeverSent | internal/store/repository.go:89-99 | Orders of a draft were never sent, so dropping the draft changes nothing at any exchange. |
| Guarantees.FillsAreConsistent | internal/orders/reconcile.go:137-151 | Always 0 <= notified <= filled <= quantity; a full fill is FILLED; an unlinked order has no fill. |
| Guarantees.FillsOnlyGrow | internal/orders/reconcile.go:137-165 | Fills and notices never decrease, what was ordered never changes, and a closed order changes only in what was notified. |
| Guarantees.FillIsNeverOverstated | internal/orders/reconcile.go:129-165 | A row never claims more than the exchange order its id names has filled. |
| Guarantees.FilledIsFull | internal/upbit/normalize.go:65-67 | On exact evidence an order is FILLED if and only if all of its quantity filled. |
| Runs.KeypadRetypesIff | internal/app/draft.go:222-290 | A number typed for a sent ladder changes its stored terms if and only if it is a possible, different one that gets saved; no order and no request is touched. |
| Runs.OnlyTypingRetypes | internal/app/draft.go:72-79 | Without such a press on a ladder, no run types over its terms. |
| Guarantees.ClosedStaysClosed | internal/orders/executor.go:50-52 | A closed ladder keeps its state, reason, venue, symbol and side, and all of its terms unless a number is typed for it; its orders stay closed, and nothing of it is ever placed again. |
| Guarantees.ClosedAsDoneIffFilled | internal/orders/reconcile.go:196-216 | A closed ladder is DONE if and only if something of it filled, and CANCELED otherwise. |
| Guarantees.NothingMoreIsSent | internal/orders/executor.go:61-73 | A ladder with nothing waiting to be sent never sends anything again. |
| Guarantees.CancelIsFinal | internal/orders/executor.go:164-213 | After a cancel of a whole ladder has run to its end, no run whatsoever places anything of that ladder. |
| Guarantees.CanceledOnlyOnEvidence | internal/orders/resolve.go:67-88 | An order that was sent is CANCELED only by a report of the exchange about the order it is linked to, or by the operator while unlinked. |
| Guarantees.CancelWaitsForProof | internal/orders/reconcile.go:152-155 | An accepted cancel leaves PENDING_CANCEL only by closing, unless the exchange answered about another order. |
| Exposures.CallsAreRows | internal/orders/executor.go:82-114 | What all requests of a ladder put at risk is what the rows they were for are worth, each counted once. |
| Exposures.ExposureWithinPlan | internal/app/actions.go:56-70 | It is at most the plan the ladder's rows were inserted from, which was built for the ladder's own stored terms, unless those were typed over since. |
| Exposures.SellExposure | internal/ladder/ladder.go:273-279 | Over every run, all sell requests of a ladder together ask for at most the rounded total it was built from, which is the stored one unless that was typed over. |
| Exposures.BuyExposure | internal/app/actions.go:48-56 | Over every run, all buy requests of a ladder, with the commission the exchange quoted for it, cost at most the total it was built from and (n/2)(1+rate) 10^-18, and at most that total on a gridded budget; it is the stored total unless that was typed over. |
| Exposures.EveryRequestIsSubmittable | internal/upbit/trading.go:256-261 | Every request that ever leaves passes the gate of the adapter it goes through. |
| Visibility.NothingIsForgotten | internal/orders/executor.go:38-44 | Every linked order is linked to its own exchange order, and every order that was sent and exists there is linked or still shown in doubt. |
| Visibility.OpIsTrue | internal/orders/reconcile.go:94-113 | Each operation writes a link or a rejection only when the exchange or the operator said so about that very order. |
| Listings.ShortcutIsAsGood | internal/orders/reconcile.go:70-92 | Against one-snapshot answers a cycle with the listing shortcut closes the same ladders as one that looks every linked order up, and leaves a row the same, but for what was notified, if and only if the shortcut did not leave it in doubt. |
| Listings.StopAlike | internal/orders/reconcile.go:70-92 | The same for one order: alike exactly unless it is in doubt with an id, shown at its old fill, and a lookup would have found it. |
| Listings.DoubtAlike | internal/orders/reconcile.go:80-86 | The exception is real: such a row stays UNKNOWN although a lookup would show it resting, at the same fill. |
| Cycles.CycleShowsTheFills | internal/orders/reconcile.go:20-68 | After an uninterrupted cycle each linked order it read shows exactly the exchange's fill; one it looked up shows the reported money, is FILLED, still PENDING_CANCEL or exactly as reported, says so when the exchange withdrew it, and has nothing left to notify. |
| Cycles.CycleClosesIff | internal/orders/reconcile.go:196-220 | An uninterrupted cycle closes a live ladder if and only if no order of it can change any more, as DONE if and only if one filled, and leaves every other ladder as it is. |
| Cycles.StopTwice | internal/orders/reconcile.go:70-169 | An order that a visit left open is left as it is by a second visit with the same answer, whatever the answer was and however many of its writes go through. |
| Cycles.SecondCycleIsIdle | internal/orders/reconcile.go:14-68 | A second cycle with the same answers leaves every order and every ladder as the first left them, whatever the answers were. |
| Execution.Executor.constructor | internal/orders/executor.go:15-21 | A process starts from empty tables. |
| Execution.Executor.VenueSettled | internal/orders/executor.go:128-142 | The loop over active orders finds one in doubt at the venue if there is one. |
| Execution.Executor.Submit | internal/orders/executor.go:38-126 | Follows SubmitScript for as long as it lives and reports what was sent, what remains and why it stopped. |
| Execution.Executor.SendOne | internal/orders/executor.go:82-113 | One rung: the attempt is committed before the request, its answer after it; ambiguous, definite and accepted answers end differently. |
| Execution.Executor.SubmitDraft | internal/app/actions.go:37-71 | Builds, inserts and submits, in that order, or resumes. |
| Execution.Executor.InsertOrders | internal/store/repository.go:101-135 | All rows or none, as the unique rung index decides. |
| Execution.Executor.CancelAll | internal/orders/executor.go:183-208 | Follows CancelRungs and counts what was requested, dropped and blocked. |
| Execution.Executor.CancelLadder | internal/orders/executor.go:164-213 | Withdraws rung after rung and then settles. |
| Execution.Executor.CancelOrder | internal/orders/executor.go:215-240 | Follows CancelOrderScript with its refusals. |
| Execution.Executor.Refresh | internal/orders/reconcile.go:70-92 | Follows RefreshScript: nothing, recovery, skip or lookup. |
| Execution.Executor.Recover | internal/orders/reconcile.go:94-113 | Follows RecoverScript: it parks, or adopts an order carrying our own identifier. |
| Execution.Executor.Park | internal/orders/reconcile.go:115-127 | Writes UNKNOWN with the reason unless the row already says so. |
| Execution.Executor.Apply | internal/orders/reconcile.go:129-169 | The field-by-field update with its status rules writes what Applied specifies, then reports the fill. |
| Execution.Executor.ReportFill | internal/orders/reconcile.go:171-194 | Records what has been reported only when there is something new. |
| Execution.Executor.Settle | internal/orders/reconcile.go:196-220 | Follows SettleScript: the loop over rungs, the state check and the summary. |
| Execution.Executor.Gather | internal/orders/reconcile.go:25-46 | Groups the active orders by venue and skips venues that are not connected or cannot be listed. |
| Execution.Executor.Reconcile | internal/orders/reconcile.go:14-68 | Refreshes every gathered order from its copy, then settles every live ladder; one failing order or ladder does not stop the rest. |
| Execution.Executor.ResolveFound | internal/orders/resolve.go:12-65 | Checks state, id and every term before adopting, then applies and settles. |
| Execution.Executor.ResolveMissing | internal/orders/resolve.go:67-99 | Writes off an unlinked order in doubt and settles. |
| Execution.Executor.Keypad | internal/app/draft.go:222-290 | Saves a possible number into the stored terms, of a sent ladder as of a draft, and refuses any other. |
| Execution.Executor.Dispatch | internal/app/app.go:66-72 | Each operation's method follows that operation's script for as long as the process lives. |
| Execution.Executor.Perform | internal/app/app.go:66-72 | Any operation keeps the invariant and ends where the model says, for any number of steps lived. |
| Execution.Executor.PerformAll | internal/app/app.go:66-72 | Any sequence of operations and crashes ends exactly where Run says. |
| Transfers.SendLeaves | internal/transfers/transfers.go:146-204 | A transfer is recorded and asked for once, if nothing is outstanding and the amount is positive; it ends DONE, FAILED or UNKNOWN exactly as the answer is a confirmation, a definite refusal or anything else. |
| Transfers.SettleLeaves | internal/transfers/transfers.go:229-284 | Settling closes exactly the unresolved records whose end the history shows, DONE or FAILED as it ended. |
| Transfers.SafeStep | internal/transfers/transfers.go:146-204 | Each write, request or decision of the exchange, taken when it is safe, keeps the invariant and reopens nothing. |
| Transfers.SendIsSafe | internal/transfers/transfers.go:151-204 | Sending is safe wherever it is cut and however the exchange decides and answers. |
| Transfers.SettleIsSafe | internal/transfers/transfers.go:229-284 | Settling is safe; a record absent from the history, or still moving, stays unresolved. |
| Transfers.RunIsSafe | internal/transfers/transfers.go:146-284 | The invariant holds after every run, and a settled record is never reopened. |
| Transfers.TransfersAreTrue | internal/transfers/transfers.go:146-218 | At most one transfer is outstanding, each is submitted and moved at most once, DONE means moved, PREPARED and FAILED mean not moved. |
| Transfers.MovesAreRows | internal/transfers/transfers.go:184-198 | As nothing moves twice, the net movement is that of the rows that moved. |
| Transfers.RecordsMatchTheExchange | internal/transfers/transfers.go:206-218 | In each currency, recorded and actual net movement agree, but for the one outstanding transfer and only if it has moved. |
| TransferService.Service.NothingOutstanding | internal/transfers/transfers.go:206-218 | Finds an unresolved transfer if there is one. |
| TransferService.Service.Send | internal/transfers/transfers.go:146-204 | Takes the steps of SendScript for as long as it lives. |
| TransferService.Service.Settle | internal/transfers/transfers.go:229-284 | Takes the steps of SettleScript for as long as it lives. |
| TransferService.Service.Perform | internal/transfers/transfers.go:146-284 | Any operation keeps the invariant and ends where the model says. |
| Paging.AddPage | internal/upbit/trading.go:198-212 | A page is added if and only if it repeats no order already seen, and the set of seen orders stays exact. |
| Paging.OpenOrders | internal/upbit/trading.go:169-218 | A listing is returned if and only if the pages end in time and repeat nothing, and then it is every row of them in order; each error names what was met first. |
| Paging.StableBookIsListedWhole | internal/upbit/trading.go:169-218 | A book that holds still is listed whole if and only if it does not fill every page that may be read. |
| Canonical.EscapesAre | internal/upbit/auth.go:31-43 | Letters, digits and - . _ ~ travel as they are, a space as a plus, and any other byte as a percent sign and its two capital hexadecimal digits. |
| Canonical.EscapeQuery | internal/upbit/auth.go:31-43 | Escaping a text byte by byte computes QueryEscape. |
| Canonical.EncodeParams | internal/upbit/auth.go:31-43 | The writing loop computes Encode, order preserved. |
| Canonical.Decode | internal/upbit/auth.go:85-105 | The index loop with its shortcut computes DecodePercent. |
| Canonical.EscapeIsUndone | internal/upbit/auth.go:85-105 | A percent sign with two hexadecimal digits of either case becomes the byte they spell. |
| Canonical.OthersAreKept | internal/upbit/auth.go:85-105 | Every other byte is kept, an incomplete escape included. |
| Canonical.CanonicalIsRaw | internal/upbit/auth.go:45-48 | What is signed is the raw pairs in order with each space as a plus; no escape is decoded twice. |
| Canonical.WireFormIsInjective | internal/upbit/auth.go:23-43 | Different parameter lists travel differently. |

## Left out

- Guarantees.FilledIsFull: for evidence that is exact, which the Toss adapter does not check; a Toss FILLED report may be partial.
- Guarantees.CancelIsFinal: for a cancel that ran to its end on a ladder that has orders; a draft without orders can still be submitted after being canceled, since canceling it does nothing.
- HTTP, JSON decoding, tokens, signatures, rate limits and retries; an adapter is the answers it gives, classified as definite or ambiguous.
- SQL text and the driver; the tables are sequences with the unique indexes that the schema promises.
- Runs.KeypadScript: any number may be typed for any ladder at any time; which field a screen was left waiting for is not tracked, so more presses are admitted than the screens allow.
- The Telegram screens, message texts, the refusal of buttons from before a restart, and the table of notices. A crash between writing a fill and queuing its notice can lose that notice.
- A database write that fails in submitting, canceling or resolving ends the operation there, as in the source, and is modelled like a crash at that point. In reconciling it is not, because the source goes on with the next order.
- Floating point in the price spacing, beyond the stated order of the raw prices.
- `IntPart` overflow in MaxRungs; the count is an unbounded integer.
- Timestamps, and with them the seven-day window in which a transfer can be looked up; a transfer older than that is one the history does not show.
- Proving which pocket each key belongs to; directions stand for the two pockets.
- PruneDrafts itself: positions stand for ids, so rows are never removed. `DraftWasNeverSent` is why pruning is harmless.
- AveragePrice, GrossAverage, NetAmount, NetAverage, VersusBase and RealizedProfit: single divisions and differences for display.
- A total or a fill finer than the columns and units that hold it: totals lie on the 10^-18 grid, fills are whole units of the venue.
- Liveness that the code does not give: a draft whose first submission is refused keeps its rows and then collides with them, and a parked row with an id and an unchanged fill waits for its fill to move.
- Configuration, ids, the advisory lock, calendars, quotes and account caching.
