# Exchange verification

A Dafny model of the exchange's core and proofs about it: the matching engine of one symbol,
the order service, the asset ledger, the wallet's withdrawals and deposits, and the codecs and
aggregators beside them. `dafny verify dfyconfig.toml` checks the whole project.

## How it is layered

* **The matching rule.** `Matching` states price-time priority on one list of resting orders
  sorted by price and arrival (`Eat`). `Books` describes one side of the book as the program keeps it,
  heap aside: the orders the heap can reach, the orders whose level the heap has lost, the empty
  levels still in the heap, and the prices whose map entry is in no heap. `EngineModel` puts two
  books together into `Submit` and `Cancel`, each one step, as the event loop serialises them.
* **The reference.** `Reference` is an engine of two sorted lists and nothing else. `Guarantees`, `MarketBuys`,
  `AveragePrice`, `OrderRecords` and `OrderLives` hold what traders are promised, `Trace` the shortest runs on
  which the engine breaks it. `SubmitAnswers` tells what a submit answers and leaves resting by the order and
  its fills alone.
* **The objects.** `LevelHeap`, `OrderBook` and `MatchingEngine` are the program's own form: orders and
  price levels as objects updated in place, the sift loops of the binary heap, the map with lazily
  deleted levels, the nested matching loops, the index of active orders. Each method is proved to compute
  what the functions of `Books` and `EngineModel` say.
* **Money.** `Ledger` and `Conservation` are the asset ledger, `AssetService` its object form.
  `Settlement` settles a match against the pooled frozen funds. `Exchange` is the whole system as one
  state machine; `StoredOrders` proves that the service's records and the engines agree, `PlaceAnswers` what a place
  call answers, `LedgerMoves` what each ledger operation moves; `Solvency`, `Withdrawals`, `SolventRuns` and
  `TradeHistory` prove what its runs keep to the unit,
  `LedgerRuns` what the books keep over every run, `LiveFunds` exactly when live orders and pending withdrawals
  stay covered, `SelfTrades` which orders run into their own user, `Leftovers` what finished orders leave frozen,
  `MakerCancel` and `LeftoverRun` the concrete runs on which funds come apart. `EngineRoom` holds the
  object engines of all markets; `OrderService` and `WalletService` are the two services as the program
  runs them, sharing order objects with the engines and one asset service with each other.
* **Codecs and aggregators.** `FixedPoint` and `DecimalText` (amounts), `Radix`, `Base58` and `Tron`
  (addresses and TRC-20 data), `Candles` and `MarketService` (candles), `Depth` (depth and snapshot).

## Where the code departs from its intent

The model keeps the code as it is. Each departure is stated with a concrete run that shows it and the exact
condition under which the intent holds.

* **Lost price levels.** Matching empties a level and leaves it in the map of levels; looking for the best level later
  pops it from the heap only (`internal/engine/book.go:54-57`). An order that then rests at that price joins
  the map entry without being pushed (`internal/engine/book.go:71-77`), so the heap never reaches it. The
  model calls such a price *buried*. `Trace.CrossedRun` is five submits that leave a bid of 95 above an ask of
  90. `Reference.RefinementExact` proves that the engine is indistinguishable from the reference along a
  run if and only if no step rests an order at a buried price, and `Guarantees.UncrossedExact` that
  exactly such a step lets a later order cross the book. The condition, `Reference.Buries`, is read off the order and
  the book before the call; `Reference.BuriesExact` says it is exactly what the submit then does.
  After the first four of those submits a fill-or-kill order is neither filled nor killed but rests
  (`Trace.FillOrKillRun`); `Guarantees.FillOrKillExact` says when.
* **Budgets that stretch.** A market buy converts what is left of its budget to a quantity and that quantity back
  to a cost, rounding down both times (`internal/engine/engine.go:188-206`). The change it keeps can buy on: below a
  price of one, a unit of change buys parts that cost nothing, over and over, so that a budget which does not
  convert evenly takes the whole resting order whatever its size; above one it buys at most one unit more.
  `MarketBuys.BoughtForNothing` is such a buy, `MarketBuys.StretchExact` tells exactly which orders a budget
  buys up and what they cost, and `MarketBuys.BudgetExact` the same for a whole book.
* **Spending of makers.** `SpentUnits` is documented as what an order has consumed so far
  (`internal/domain/types.go:78-80`) but the settlement loop updates it for the taker only
  (`internal/order/service.go:101-110`), so cancelling an order that was filled as a maker gives back funds
  that are already gone. `MakerCancel.MakerCancelBreaks` is a run of six calls after which an
  ordinary trade between two users cannot settle. The model carries, beside the order's own `frozen` and
  `spent`, the history variable `settled`: the cost of all trades settled against the order, which a caller
  can add up from the trades naming it. `Solvency.PlaceRecords` proves that the two
  part exactly by what fills cost the order as a maker. (`loose`, frozen funds that back nothing, is a second such variable:
  empty from the opening on, and moved by no call.)
  What a cancel then does to the funds of its account is `LiveFunds.CancelSpare`. `LiveFunds.CoveredExact` proves that
  over any run frozen funds cover every live order and every pending withdrawal, and every settlement goes through
  except where a user meets itself, if and only if each cancel gives back no more than its order still held
  plus what is spare in its account at that moment, or the ledger refuses to give it back;
  `LiveFunds.CoverByHistory` restates that by the trades the calls have reported. `SolventRuns.SolventExact` and
  `TradeHistory.CancelByHistory` are the same for books kept to the unit, where a cancel may not even use up what is spare;
  `MakerCancel.HarmlessCancel` is a cancel that breaks those and covers everything live all the same.
* **Numbers.** A text may carry a second sign behind the first: `DecimalText.TwoSigns` reads "--5" as five;
  `DecimalText.ParseExact` tells exactly which texts are read. Prices, quantities and budgets are cut to 64 bits when
  an order is built (`internal/order/service.go:166-198`), so a large price may become another, as in
  `PlaceAnswers.LargePrice`; `PlaceAnswers.PlaceCarries` says that an order has the numbers of its request exactly
  if int64 holds them.
* **Transfers to nobody.** A transfer built for an address that cannot be read goes to twenty zeros
  (`internal/wallet/tron.go:358-367`): `Tron.TransferToNobody`. For every address of 21 bytes or more it goes there
  (`Tron.TransferRoundTrip`).
* **Leftovers.** An order gives its unspent funds back if it finishes in its own place call
  (`internal/order/service.go:112-120`). One finished by somebody else's order keeps them: every later cancel of it is
  refused and no call touches its money again (`Leftovers.FinishedStays`). `LeftoverRun.FinishedBidLeaves` is a run of six
  calls that ends so. `Leftovers.FinishedLeaves` tells by the trades exactly when such an order leaves nothing, and
  `Leftovers.SpareOfRun` that after a prudent run all spare funds are what such orders still hold.
* **Settlements that stop.** Settlement refuses a trade with one user on both sides (`internal/asset/service.go:228-230`)
  although the engine matches it: `MakerCancel.SelfTradeUnsettled` is such a run. `Settlement.SettleAlong` proves this to be
  the only way a settlement can fail in a covered exchange; `SelfTrades.SelfTradeExact`, `SelfTrades.ReachesExact` and
  `SelfTrades.ReachesBudget` tell from the order and the book which orders run into it, `SelfTrades.UnsettledExact` which
  place calls. A settlement that fails at the seller has already posted the buyer's
  legs (`internal/asset/service.go:235-258`): `MakerCancel.MakerCancelBreaks` reaches one when the cancelled order is an ask,
  and the base asset is no longer conserved; `Conservation.SettleConservesExact` is the exact condition.

## Assumptions

Service calls are atomic. Engine orders are handed over fresh (nothing filled, `remaining` equal to the quantity,
limit orders with a positive quantity); for orders the order service builds this is proved, given that
every symbol's smallest quantity and smallest notional are positive. Amounts are mathematical integers, with the
code's int64 guards and truncations written out where it has them (`WrapInt64`, `PriceQtyToQuote`,
`QuoteToQty`). Base and quote assets may coincide, except in `Conservation.SettleConservesExact`.

## Model

| member | source | states |
|---|---|---|
| FixedPoint.QuoteSuperAdditive | pkg/decimal/decimal.go:148-158 | rounding down the parts of a quantity never costs more than rounding down the whole |
| FixedPoint.WithinBudget | internal/engine/engine.go:416-426 | every quantity the budget conversion admits costs no more than the budget |
| FixedPoint.WrapsWhole | internal/order/service.go:163-166 | reading a number as int64 drops a whole number of times two to the 64 |
| FixedPoint.NothingAffordable | internal/engine/engine.go:416-426 | a budget converts to nothing exactly if it cannot pay for one unit or converts to more than int64 holds |
| DecimalText.RoundTrip | pkg/decimal/decimal.go:32-99 | printing and parsing back gives the same units, for every integer |
| DecimalText.FromString | pkg/decimal/decimal.go:32-71 | the parser loop computes the specification `Parse`: trim, sign, split, pad, convert |
| DecimalText.PrintNormal | pkg/decimal/decimal.go:74-99 | every number of units prints in normal form: no leading zeros, no trailing zeros of the fraction, no minus before zero |
| DecimalText.NormalExact | pkg/decimal/decimal.go:32-99 | exactly the texts in normal form are printed back as they were read |
| DecimalText.ParseExact | pkg/decimal/decimal.go:32-71 | exactly the texts of white space, signs, digits and a point with at most eight digits behind it are read |
| DecimalText.FormParses | pkg/decimal/decimal.go:32-71 | each is read as the number its digits and signs denote |
| DecimalText.TwoSigns | pkg/decimal/decimal.go:38-67 | three texts with two signs, and what they are read as |
| Matching.AfterFillShrinks | internal/engine/engine.go:150-241 | every fill, even one that spends no quote, strictly lowers the resting quantity: matching terminates |
| Matching.EatConserves | internal/engine/engine.go:211-218 | what the taker gains, the resting side loses, and the fills add up to both; remaining never goes negative except for market buys |
| Matching.EatPriority | internal/engine/engine.go:150-241 | full price-time priority: the makers touched are a prefix of the sorted list, all but the last completely filled |
| Matching.EatStops | internal/engine/engine.go:153-176 | matching stops only when the taker is exhausted, nothing crosses, nothing is left, or the leftover budget buys nothing |
| Books.MatchBookIsEat | internal/engine/engine.go:150-241 | the loop over the lazily cleaned book makes the fills of the reference matcher on the reachable orders, and leaves the same queue |
| Books.AddOk | internal/engine/book.go:70-79 | adding an order keeps the book sorted, open, free of duplicates and correctly placed |
| Books.RemoveOk | internal/engine/book.go:81-97 | removing takes out exactly the one order and keeps the book well formed |
| EngineModel.SubmitOk | internal/engine/engine.go:94-146 | every submit keeps the engine invariant |
| EngineModel.CancelOk | internal/engine/engine.go:297-317 | a cancel succeeds exactly for active orders, and afterwards only that order is gone |
| SubmitAnswers.TurnedDown | internal/engine/engine.go:94-116 | an order turned down before matching is told the duplicate, the unknown type or the missing quantity, and nothing happened |
| SubmitAnswers.Answered | internal/engine/engine.go:118-139 | any other order keeps its terms and adds up its fills; its status tells exactly what became of it, and it rests exactly if something may wait |
| SubmitAnswers.SubmitTrades | internal/engine/engine.go:244-258 | every trade names both orders, users and sides, at the price of the resting one, which the other accepts, under the next number |
| SubmitAnswers.SubmitLeaves | internal/engine/engine.go:94-241 | what rests afterwards are the orders that rested before as the fills leave them, those with something remaining, and the new one if its status says so |
| SubmitAnswers.CancelAnswered | internal/engine/engine.go:297-317 | a cancel hands back the resting order with this id, marked as canceled, and takes out no other |
| SubmitAnswers.RunStatuses | internal/engine/engine.go:119-139 | in every state of every run a resting order is new exactly if nothing of it was filled and otherwise partially filled, and every answer's statuses tell what happened |
| SubmitAnswers.RunNumbers | internal/engine/engine.go:245-257 | over any run trades are numbered one after the other |
| Reference.SubmitRefines | internal/engine/engine.go:94-241 | from matching states both engines answer a submit alike, and stay matched unless it buries the order |
| Reference.CancelRefines | internal/engine/engine.go:297-317 | from matching states both engines answer a cancel alike and stay matched |
| Reference.RefinementExact | internal/engine/engine.go:94-317 | over any run the engine is indistinguishable from the reference exactly when no order comes to rest at a buried price |
| Reference.BuriesExact | internal/engine/book.go:70-79 | what the book shows before a submit tells exactly whether it leaves its order at a buried price |
| Reference.BuryingShows | internal/engine/book.go:70-79 | after a burying submit there is an order the two engines answer differently |
| Guarantees.CleanRunUncrossed | internal/engine/engine.go:127-178 | in every state of a run that buries nothing the highest bid is strictly below the lowest ask |
| Guarantees.UncrossedExact | internal/engine/engine.go:127-178 | no next order can leave the book crossed after this submit exactly when it buried nothing |
| Guarantees.FillOrKillExact | internal/engine/engine.go:105-111 | a fill-or-kill order is filled completely iff the reachable crossing quantity suffices, refused with nothing changed iff all crossing quantity does not, and otherwise, only through a buried price, rests |
| Guarantees.FillOrKillAllOrNothing | internal/engine/engine.go:105-111 | with every order reachable, fill-or-kill is all or nothing and never rests |
| Guarantees.BudgetKept | internal/engine/engine.go:188-226 | a market buy spends exactly the sum of its fills' costs and never more than its budget; the defensive break is dead |
| Guarantees.BudgetStops | internal/engine/engine.go:188-206 | a market buy cannot go on exactly with its budget spent, no reachable order, an unpriced best order, or a leftover that cannot pay for one unit or converts to more than int64 holds |
| Guarantees.BudgetUsed | internal/engine/engine.go:188-206 | and it goes on until one of these is so |
| MarketBuys.BudgetExact | internal/engine/engine.go:188-226 | exactly which orders a market buy uses up and what its budget is then, read off the budget and the orders' prices and quantities without matching |
| MarketBuys.StretchExact | internal/engine/engine.go:188-226 | one order is bought up exactly if the budget converts to its quantity or the change stretches to the rest, and what it then costs |
| MarketBuys.FreeRun | internal/engine/engine.go:188-226 | an ask of any size at 0.3 is bought whole by any budget that converts to some but not all of it and not evenly, for one unit less than the budget |
| MarketBuys.BoughtForNothing | internal/engine/engine.go:188-226 | two concrete submits: a budget of one unit takes an ask of any size for nothing |
| Guarantees.ReserveCovers | internal/order/service.go:212-217 | the per-fill floors of a limit buy never add up to more than the reserve frozen for it |
| Guarantees.DustBound | internal/order/service.go:212-217 | filled in n parts at its limit, a buy leaves less than n units of its reserve unspent |
| AveragePrice.TakerAverage | internal/engine/engine.go:211-217 | over one match, the iterated floor average never exceeds the exact mean and is less than n units below it after n fills |
| AveragePrice.TakerAverageWithin | internal/engine/engine.go:406-413 | the average stays between the cheapest and the dearest price met |
| AveragePrice.LimitKept | internal/engine/engine.go:406-413 | a limit order's average never passes its own limit |
| OrderLives.RunAverages | internal/engine/engine.go:211-217 | over any run, wherever an order rests or is shown, its filled quantity is that of all fills of its life, taken and made, and its average lies between their lowest and highest price, never above their exact mean, less than one unit a fill below it |
| OrderLives.RestedAtOwnPrice | internal/engine/engine.go:212-217 | an order that came to rest unfilled is recorded at exactly its own price, wherever it rests and after every fill it makes, over any run that does not reuse its id |
| OrderRecords.RunRecords | internal/engine/engine.go:211-217 | in every state and answer of every run, filled plus remaining is the quantity and averages respect limits |
| Trace.CrossedRun | internal/engine/book.go:52-79 | a concrete run of five submits after which a bid rests above an ask |
| Trace.FillOrKillRun | internal/engine/engine.go:105-111 | after four submits a fill-or-kill order is neither filled nor refused: it rests untouched |
| LevelHeap.SiftUp | internal/engine/book.go:124-140 | sifting up restores the heap order and only rearranges |
| LevelHeap.SiftDown | internal/engine/book.go:124-149 | sifting down restores the heap order and only rearranges |
| LevelHeap.HeapPush | internal/engine/book.go:140-140 | pushing keeps the heap ordered and adds exactly the new level |
| LevelHeap.HeapPop | internal/engine/book.go:142-149 | popping returns the root and leaves an ordered heap of the others |
| LevelHeap.RootFirst | internal/engine/book.go:131-136 | no level of an ordered heap sorts before its root |
| OrderBook.RootIsBest | internal/engine/book.go:52-68 | a live root is the best reachable price |
| OrderBook.OrderBook.Best | internal/engine/book.go:52-68 | the lazy search returns the level of the best reachable order, or nil only when there is none, and buries exactly the empty levels it pops |
| OrderBook.OrderBook.Add | internal/engine/book.go:70-79 | the in-place add is the book's add; map, heap and queues keep agreeing |
| OrderBook.OrderBook.Remove | internal/engine/book.go:81-97 | the in-place splice finds the order exactly when its level holds it, and is the book's remove |
| OrderBook.OrderBook.FillFront | internal/engine/engine.go:211-236 | filling a level's first order in place is filling the head of the book |
| MatchingEngine.Engine.ConsumeLevel | internal/engine/engine.go:182-241 | the inner loop fills the level's orders first come first served and reports whether anything traded |
| MatchingEngine.Engine.Match | internal/engine/engine.go:150-178 | the nested loops carry out the specified match on the objects |
| MatchingEngine.Engine.CanFullyFill | internal/engine/engine.go:273-294 | for every order of visiting the levels, the answer is whether all crossing quantity covers the order |
| MatchingEngine.Engine.Submit | internal/engine/engine.go:94-146 | the object engine's new state, order, trades and makers are those of the specified submit |
| MatchingEngine.Engine.Cancel | internal/engine/engine.go:297-317 | the object engine's cancel is the specified cancel; an active order is always found in its book |
| Depth.BestExact | internal/engine/book.go:100-121 | what is shown at a limit is the beginning of the full depth, all of it or as many levels as the limit |
| Depth.DepthUnique | internal/engine/book.go:100-121 | the totals of a side have one depth list, so neither map order nor sorting can matter |
| Depth.LevelsDepth | internal/engine/book.go:100-121 | whatever levels a side holds, prices with a positive total are listed best first; one is missing only if as many as the limit are listed and all of them are better |
| Depth.BookDepth | internal/engine/book.go:100-121 | in a book in use those totals are the sums of the resting orders, grouped by price |
| Depth.DepthCovers | internal/engine/book.go:100-121 | a price is listed exactly when an order rests there |
| Depth.RestoreSide | internal/engine/engine.go:371-394 | restoring builds one level per listed price with its total, all in an ordered heap |
| Depth.TakeSnapshot | internal/engine/engine.go:351-370 | a snapshot holds the full depth of both sides, the sequence number and a copy of every active order |
| Depth.RestoreEngine | internal/engine/engine.go:372-394 | a new engine restored from a snapshot has its sequence number and its levels |
| Depth.SnapshotRoundTrip | internal/engine/engine.go:351-394 | an engine restored from a snapshot has the sequence number and, at every limit, exactly the depth lists of the engine it was taken of |
| Depth.EngineDepth | internal/engine/engine.go:327-341 | the depth call reads both sides' lists and the sequence number, of an engine in use or a restored one |
| Ledger.RunReconciles | internal/asset/service.go:128-259 | after any operations, failed ones included, every balance is what its entries rebuild, every entry states its total, and nothing is negative |
| Ledger.SettleReconciles | internal/asset/service.go:215-259 | also a settlement that stops half-way leaves reconciled books |
| LedgerRuns.RunReconciled | internal/asset/service.go:128-259 | the same over every run of the exchange, careless cancels and failed settlements included; entries are only added, and what came into an account is what was deposited and credited there, each transaction once |
| LedgerRuns.CreditExact | internal/wallet/service.go:177-191 | a new transaction adds its amount to the user's available funds and to nothing else, with one entry; one that is no amount is an error; a remembered one does nothing |
| LedgerMoves.DepositExact | internal/asset/service.go:149-159 | a deposit adds its amount to one account's available funds with one entry, or is refused |
| LedgerMoves.FreezeExact | internal/asset/service.go:162-176 | exactly when a freeze is refused, and otherwise what it moves and enters |
| LedgerMoves.UnfreezeExact | internal/asset/service.go:179-193 | the same of an unfreeze |
| LedgerMoves.ConsumeExact | internal/asset/service.go:196-209 | the same of a consumption |
| LedgerMoves.SettleExact | internal/asset/service.go:215-259 | exactly when a settlement is refused, and with which error; otherwise quote goes from the buyer's frozen funds to the seller's available ones, base the other way, and no other balance moves |
| Conservation.SettleConservesExact | internal/asset/service.go:235-258 | a settlement conserves every asset exactly when it does not stop with the buyer's legs posted and the seller short |
| AssetService.AssetService.Freeze | internal/asset/service.go:162-176 | the in-place freeze is the specified freeze |
| AssetService.AssetService.Unfreeze | internal/asset/service.go:179-193 | the in-place unfreeze is the specified unfreeze |
| AssetService.AssetService.ConsumeFrozen | internal/asset/service.go:196-209 | the in-place consumption is the specified one |
| AssetService.AssetService.Deposit | internal/asset/service.go:149-159 | the in-place deposit is the specified deposit |
| AssetService.AssetService.SettleTrade | internal/asset/service.go:215-259 | the four legs in the program's order are the specified settlement, failures included |
| Settlement.FillNeeds | internal/order/service.go:204-222 | a fill costs each side no more than it needed, and leaves enough for the most the rest can cost |
| Settlement.SettleAlong | internal/order/service.go:94-111 | settling a match never fails for want of funds, half-settled batches included; it stops exactly at a self-trade |
| SelfTrades.SelfTradeExact | internal/asset/service.go:228-230 | a match trades a user with itself exactly when the order, matched against the orders ahead of one of its own user, uses them up and still trades with that one |
| SelfTrades.ReachesExact | internal/engine/engine.go:150-241 | for all but market buys that is: the price crosses and the quantity ahead does not suffice |
| SelfTrades.ReachesBudget | internal/engine/engine.go:188-206 | for market buys: the budget buys up all orders ahead, and what is left buys some of this one |
| SelfTrades.UnsettledExact | internal/order/service.go:62-111 | while live orders are covered, a place call leaves its trades unsettled exactly when its order is funded, the engine lets it trade, and it reaches an order of its own user |
| Settlement.TakerRecorded | internal/order/service.go:101-110 | when all fills settle, the taker's recorded spending is its settled cost |
| Settlement.MakersUnrecorded | internal/order/service.go:94-111 | settling charges makers without recording it as spent |
| StoredOrders.RunFiled | internal/order/service.go:62-262 | over any run every record is its user's own, and the record of an order says that it rests exactly if it does, and then says what rests |
| StoredOrders.CancelExactly | internal/order/service.go:240-262 | in such a state a cancel succeeds exactly for the owner of an order whose record says that it rests, takes that order and no other out, and moves its owner's balances alone; any other is told why and changes nothing |
| StoredOrders.RunCancels | internal/order/service.go:240-262 | so in every reachable state |
| PlaceAnswers.PlaceCarries | internal/order/service.go:62-201 | every order a reply carries has the request's side, type, time in force and numbers, these exactly if int64 holds them, and a status that tells what became of it |
| PlaceAnswers.PlaceStores | internal/order/service.go:76-124 | the record stored of a placed order is the order the reply carries |
| PlaceAnswers.LargePrice | internal/order/service.go:165-171 | a price that is two to the 64 units too large is taken for the smaller one |
| PlaceAnswers.RefusedExact | internal/order/service.go:62-73 | exactly which requests become no order, with which error |
| PlaceAnswers.FundsExact | internal/order/service.go:76-81 | exactly which orders are refused for their funds, with which error; the record of one states its amount all the same |
| PlaceAnswers.ImmediateGone | internal/engine/engine.go:129-130 | an immediate-or-cancel request leaves nothing resting |
| PlaceAnswers.FillOrKillWaits | internal/engine/engine.go:105-111 | a fill-or-kill request leaves its order resting only where orders at buried prices make up what it could not reach |
| Solvency.ReserveExact | internal/order/service.go:204-222 | what an order freezes is exactly the most a trade it accepts can cost it: never exceeded, and reached |
| Solvency.PlaceKeeps | internal/order/service.go:62-125 | placing any order keeps the exchange sound, fails to settle only at a self-trade, and leaves a finished order with exactly what it spent |
| Solvency.PlaceRecords | internal/order/service.go:94-111 | a placed order changes other orders' money only by their maker cost, in the settled column alone |
| Solvency.BudgetRecorded | internal/order/service.go:101-107 | in every state, careless cancels before it or not, a settled market buy's recorded spending is its budget less what the engine left of it |
| Solvency.CancelExact | internal/order/service.go:240-262 | a refused cancel changes nothing; a successful one keeps the books to the unit exactly when nothing settled is missing from the order's spending |
| Solvency.CancelReturns | internal/order/service.go:226-262 | such a cancel gives back everything its order had frozen and not spent, and moves no other balance |
| TradeHistory.RunUnrecorded | internal/order/service.go:94-111 | over a prudent run without self-trades, what an order does not record as spent is exactly what the reported trades cost it as their maker |
| TradeHistory.CancelByHistory | internal/order/service.go:240-262 | after such a run a cancel keeps the books to the unit exactly when no reported trade cost the order anything as its maker |
| LiveFunds.ReleaseSlackExact | internal/order/service.go:226-237 | once a released order stops counting, the slack of its account has moved by what it held less what the ledger gave back, and no other account's has |
| LiveFunds.CancelSpare | internal/order/service.go:240-262 | the same for what every account has to spare beyond its live orders and pending withdrawals |
| LiveFunds.CancelCovers | internal/order/service.go:226-262 | a cancel leaves every live order and pending withdrawal covered exactly when what it gives back beyond what its order still held was spare, or the ledger refuses to give it back |
| LiveFunds.StepCovers | internal/order/service.go:62-125 | any other call keeps them covered; a placed order's trades settle unless one has a single user on both sides, and an approval that fails has changed nothing |
| LiveFunds.PrudentIsFrugal | internal/order/service.go:226-237 | a run whose cancels all find settled cost recorded never uncovers anything |
| LiveFunds.CoveredExact | internal/order/service.go:62-262 | over any run of calls they stay covered and every promise is kept exactly when every cancel is such |
| LiveFunds.CoverByHistory | internal/order/service.go:240-262 | after such a run without self-trades, the condition for a cancel told by what the reported trades cost its order as their maker |
| Leftovers.FinishedStays | internal/order/service.go:240-262 | over any run a filled order keeps its record and its money, and every cancel of it is refused with nothing changed |
| Leftovers.SpareOfRun | internal/order/service.go:112-120 | after a prudent run from the opening state, what an account has to spare is exactly what its orders that are no longer live still hold |
| Leftovers.FinishedLeaves | internal/order/service.go:94-120 | after such a run without self-trades, a filled order holds what it froze less what it spent and what the trades cost it as their maker; it leaves nothing exactly when these are equal |
| Leftovers.LeftoverStays | internal/order/service.go:112-120 | and what it holds stays frozen and spare along every further prudent run |
| LeftoverRun.FinishedBidLeaves | internal/order/service.go:112-120 | six concrete calls after which a filled bid holds one unit for good |
| MakerCancel.MakerCancelBreaks | internal/order/service.go:226-262 | six concrete calls after which live orders are not covered and a trade between two users fails to settle; with an ask cancelled, it stops half-way and base is not conserved |
| MakerCancel.HarmlessCancel | internal/order/service.go:226-237 | a careless cancel the ledger refuses to pay: no balance moves and everything live stays covered |
| MakerCancel.SelfTradeUnsettled | internal/asset/service.go:228-230 | three calls after which a user's order meets its own and its trade is left unsettled |
| Withdrawals.SubmitKeeps | internal/wallet/service.go:196-237 | a withdrawal freezes amount and fee and stores a pending request with these terms, or leaves all funds and requests alone |
| Withdrawals.ApproveKeeps | internal/wallet/service.go:240-283 | a broadcast withdrawal always finds its amount and fee frozen, and consumes exactly them |
| Withdrawals.RejectKeeps | internal/wallet/service.go:286-303 | declining returns amount and fee in full |
| Withdrawals.ConfirmKeeps | internal/wallet/service.go:306-326 | confirming moves only a broadcast withdrawal, and no funds |
| Withdrawals.SubmitExact | internal/wallet/service.go:196-237 | exactly which requests are taken, what they freeze, and what the others are told |
| Withdrawals.ApproveExact | internal/wallet/service.go:240-283 | exactly which requests are broadcast, with their transaction's hash, and what is then taken out, in every state |
| Withdrawals.RejectExact | internal/wallet/service.go:286-303 | exactly which requests are declined, and what is given back, in every state |
| Withdrawals.ConfirmExact | internal/wallet/service.go:306-326 | exactly which confirmations finish a withdrawal, and what the others are told |
| SolventRuns.SolventExact | internal/order/service.go:62-262 | from books kept to the unit, a run of any calls keeps them so, and every promise, exactly when its cancels are careful |
| SolventRuns.PrudentRunConserves | internal/asset/service.go:128-259 | after such a run from the opening state every asset is conserved, every balance replays, and frozen funds are exactly held plus reserved |
| SolventRuns.WithdrawalsAdvance | internal/wallet/service.go:240-326 | over any run withdrawals keep their terms and only move forward, so none is paid twice or both paid and returned |
| SolventRuns.CreditedOnce | internal/wallet/service.go:177-191 | a chain transaction is credited at most once per asset, and a failed credit is not retried |
| EngineRoom.EngineRoom.SubmitApart | internal/order/service.go:83-84 | a submit to one market's engine object leaves every other engine where it was, and every order object as the fills say |
| EngineRoom.EngineRoom.CancelApart | internal/order/service.go:253-254 | so does a cancel |
| OrderService.OrderService.Start | cmd/exchange/main.go:42-58 | wiring up an empty ledger and one empty engine a market reaches the opening state |
| OrderService.OrderService.SubmitOrder | internal/order/service.go:83-84 | after the engine's submit, every stored order object is as the specified match patches it |
| OrderService.OrderService.ExecuteOrder | internal/order/service.go:83-125 | matching, settling and releasing on the shared objects take the exchange where the specified execution goes |
| OrderService.OrderService.PlaceOrder | internal/order/service.go:62-125 | the service's call takes the exchange where the specified place does, and hands back the order, trades and error of its reply |
| OrderService.OrderService.SettleAll | internal/order/service.go:94-111 | the settlement loop is the specified settlement of the fills, stopping at the first failure |
| OrderService.OrderService.CancelOrder | internal/order/service.go:240-262 | the service's cancel on the shared objects is the specified cancel |
| WalletService.WalletService.Submit | internal/wallet/service.go:196-237 | the service's submission is the specified one, rollback of the amount included |
| WalletService.WalletService.ApproveWithdrawal | internal/wallet/service.go:240-283 | the service's approval is the specified one for every answer of the chain adapter |
| WalletService.WalletService.RejectWithdrawal | internal/wallet/service.go:286-303 | the service's rejection is the specified one |
| WalletService.WalletService.CreditDeposit | internal/wallet/service.go:177-191 | the service's credit is the specified one |
| Radix.RecodeInverse | internal/wallet/base58.go:13-57 | rewriting digits to another radix and back gives the same digits, leading zeros included |
| Base58.DecodeEncode | internal/wallet/base58.go:13-57 | every byte string survives encoding and decoding |
| Base58.EncodeDecode | internal/wallet/base58.go:38-57 | exactly the texts over the alphabet decode, and each is the encoding of what it decodes to |
| Base58.B58Encode | internal/wallet/base58.go:13-35 | the division loop, the leading ones and the in-place reversal compute the encoding |
| Base58.B58Decode | internal/wallet/base58.go:38-57 | the accumulation loop computes the decoding, or refuses |
| Base58.AlphabetIs | internal/wallet/base58.go:9-10 | the letters are all digits and letters but zero, capital O, capital I and small l |
| Base58.EncodeValue | internal/wallet/base58.go:13-35 | read in radix 58 an encoding is the number of its bytes, with a leading one for every leading zero |
| Base58.CheckBytes | internal/wallet/base58.go:69-74 | behind the payload stand the first four bytes of its hash hashed again |
| Base58.CheckRoundTrip | internal/wallet/base58.go:69-94 | for any hash a payload survives exactly when it is not empty |
| Base58.CheckAccepted | internal/wallet/base58.go:77-94 | an accepted text is the one encoding of its payload |
| Base58.B58CheckDecode | internal/wallet/base58.go:77-94 | the checksum loop computes the specified check |
| Tron.AddressForms | internal/wallet/tron.go:341-356 | the hexadecimal and Base58 forms of a 21-byte address turn into each other |
| Tron.AddressText | internal/wallet/tron.go:341-356 | every accepted address comes back from its hexadecimal form |
| Tron.TransferRoundTrip | internal/wallet/tron.go:176-188 | the transfer parser finds the receiver and the amount the builder put in, for every address of 21 bytes or more |
| Tron.TransferBytes | internal/wallet/tron.go:297-305 | the built data byte by byte: selector, zeros, address, amount |
| Tron.ParsedExact | internal/wallet/tron.go:176-188 | exactly which data are read as a transfer, and as which |
| Tron.TransferToNobody | internal/wallet/tron.go:358-361 | a transfer built for an unreadable address goes to twenty zeros |
| Tron.HexDigits | internal/wallet/tron.go:343-347 | the hexadecimal digits are the usual ones, written in lower case and read in both |
| Tron.HexAccepted | internal/wallet/tron.go:350-356 | exactly the texts of an even number of hexadecimal digits are read |
| Tron.PrefixFree | internal/wallet/tron.go:375-380 | an address is read with and without 0x in front |
| Tron.HexExact | internal/wallet/tron.go:350-356 | each pair of hexadecimal digits is read as one byte |
| Tron.ScannedExact | internal/wallet/tron.go:155-162 | a transfer is scanned back as its address exactly when the address has prefix byte 0x41 |
| Candles.FoldedGroups | internal/market/service.go:125-160 | for a clock that never goes back, candles are the trades grouped by bucket: increasing, each telling its bucket, none missing |
| Candles.RollUp | internal/market/service.go:125-160 | a coarse interval's candles are the finer ones merged bucket by bucket |
| Candles.IntervalsRollUp | internal/market/service.go:20-23 | each supported interval rolls up into the next |
| Candles.NewestStep | internal/market/service.go:145-149 | dropping all but the newest thousand changes nothing else |
| MarketService.MarketService.Aggregate | internal/market/service.go:89-164 | over any number of trades, what is kept are the newest candles of the whole history for every interval, and its newest trades |

## Left out

- A request without a time in force means good till cancelled, and the model's requests say so.
- Timestamps, the formatting of order, trade, entry and withdrawal ids (`itoa`), reference ids of entries, and the listing queries: only uniqueness and numbering matter here.
- Trade listeners, WebSocket publishing, depth-push throttling and the ticker: they change no order, balance or candle.
- Goroutine interleaving inside one service call: each call is one atomic step, as one engine request is.
- int64 overflow of running totals the code does not guard (balances, level totals, filled quantities): modelled as mathematical integers.
- Order requests with a side other than buy or sell: refused by the code before anything else happens; the model's sides are the two.
- A disabled symbol's missing engine (`cmd/exchange/main.go:42-48`): the model gives every market an engine, and a disabled one refuses orders before reaching it. An order stored at the end of a place call is stored by the model before matching, which no other call can observe.
- Withdrawal requests and candles are values in maps and sequences that the methods reassign, not objects shared with their readers.
- `sort.Slice` in the depth: its result is specified and computed by insertion; `DepthUnique` shows that any sort gives the same list.
- Big-integer byte conversions in Base58 (`SetBytes`, `Bytes`) are the digits of the number in radix 256; SHA-256 is an arbitrary function to 32 bytes.
- A restored engine as a source of trades: restored levels have totals but no orders, so the engine invariant does not hold for them.
- The settlement fields of an order (`FrozenUnits`, `SpentUnits`) are kept in the order service's purse, beside the order object: the engine never touches them.
- HTTP handlers, routing, authentication, HD derivation, node RPC, signing, sweeping, the block scanner's completeness, and unit conversion between chains: input and output, libraries, or easy one-branch facts.
- Validation of withdrawal addresses and the hot wallet's key are part of the chain adapter's answer.
