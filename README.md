# Portfolio tools for a Binance spot account, modelled in Dafny

This project models the decision logic of a small trading dashboard for a
Binance spot account. There are three modules, one per core source file,
plus one shared module:

- `History` (history.dfy) models `PortfolioHistory`, the portfolio snapshot store.
  - It is a class with three parts of state: the snapshot list, the metadata and the last live-write time.
  - `add_snapshot` applies a 60-second debounce to live writes, then a 30-second duplicate window to every write. It then inserts the snapshot and keeps the list sorted by timestamp.
  - `_update_metadata` keeps the four metadata fields in step with the list.
  - `get_history` is a range filter. `get_latest_snapshot` returns the latest snapshot.
  - The range, interval and coverage arithmetic of `get_range_start_time`, `get_interval_for_range` and `should_backfill` is modelled.
  - The backfill grid is modelled: steps from `int(start)` to `int(end)`, dropping covered points and capping at 500 by stride. So are the backfill's value sum and its add loop.
  - `calculate_stats` and `prune_old_data` are modelled.
  - The class invariant `Valid()` holds that timestamps are at least 30 s apart, which makes the list sorted, and that the metadata describes a non-empty list.
- `Exchange` (exchange.dfy) models `BinanceClient` and `BinanceClientError`.
  - `adjust_quantity` truncates a quantity to a multiple of the LOT_SIZE `stepSize`, and only that. The code then renders the result at the precision read off the eight-place printing of the step. That rendering is modelled on its own (`AdjustQuantityAsWritten`), and it loses precision for some steps (see "## Findings"). `adjust_quantity(symbol, q)` as used by `place_order` and the handlers is modelled with the corrected, lossless version; the two agree whenever the step prints exactly, as every power-of-ten step from 1 to 1e-8 does.
  - Also modelled: the `get_balances` non-zero filter, the `get_symbol_filters` lookup, and the `place_order` parameters.
  - `calculate_portfolio_value` is modelled as its accumulating loop.
  - The two error classifications are modelled: code -1013 together with a message substring.
  - The exchange is a `Venue`. Every answer, a failure included, is a function of the requests sent so far, so two reads with no request between them answer alike. The exchange info is one fixed answer, fetched or failed. A `BinanceClient` records the requests it sends.
- `Handlers` (handlers.dfy) models `GUIHandlers`.
  - `add_log` prepends to the session's activity log.
  - The buy, sell and cancel forms are modelled: their validation order, the orders they send, and the one log entry each writes.
  - `handle_portfolio_reset` is modelled. It cancels every open order, and any failing cancel aborts the reset. It classifies balances into sellable (worth at least 10 USDT) and dust. It runs one sell pass, whose errors are caught per asset. It then runs a dust sweep gated on a USDT balance that is read once.
  - Each handler is a method proved equal to a function on the client's request history and the log. The properties are lemmas about those functions.
- `Common` (common.dfy) holds Python built-ins used by all three:
  - `int()` on a float, which truncates toward zero;
  - substring `in`;
  - order-preserving subsequences;
  - a few generic sequence facts.

Some behaviour is modelled exactly as the code has it, even where it may surprise:
- Pruning every snapshot leaves the metadata unchanged, because `_update_metadata` does nothing on an empty list. `Valid()` only constrains the metadata of a non-empty list.
- A live add that passes the debounce records the current time even when the duplicate check then refuses it.
- Python's `Decimal` `//` truncates toward zero, so negative quantities round toward zero.
- `AdjustQuantityAsWritten` models the eight-place printing of the step: a step finer than 1e-8 yields precision 0. It is the only member that renders; see "## Findings" and "## Left out".

## Model

| member | source | states |
|---|---|---|
| History.PortfolioHistory.constructor | libs/portfolio/history.py:56-73 | A new store is empty: no snapshots, empty metadata, last live time 0, and the given price client. It satisfies the store invariant. |
| History.PortfolioHistory.UpdateMetadata | libs/portfolio/history.py:97-107 | On a non-empty list the metadata becomes the min timestamp, max timestamp, length and backfilled count. On an empty list nothing changes, and the snapshots never change. |
| History.MinTimestampIsLeast | libs/portfolio/history.py:101-102 | `min(timestamps)` is a stored timestamp no larger than any other. |
| History.MaxTimestampIsGreatest | libs/portfolio/history.py:101-103 | `max(timestamps)` is a stored timestamp no smaller than any other. |
| History.CountBackfilledCounts | libs/portfolio/history.py:105-107 | The backfilled count is at most the length. It is 0 exactly when no snapshot is backfilled, and the full length exactly when all are. |
| History.MetadataOfSorted | libs/portfolio/history.py:97-107 | On a sorted list, first and last are the first and last snapshots' timestamps, and the total is the length. |
| History.PortfolioHistory.AddSnapshot | libs/portfolio/history.py:109-160 | A live add within 60 s of the last passing live add returns false and changes nothing. A passing live add records `now`, even if it is then refused. A timestamp strictly within 30 s of a stored one is refused, backfilled or not. An accepted add inserts exactly the new snapshot (`int(timestamp)`) at its sorted place. The store invariant is kept: spaced, sorted, metadata in step. |
| History.HasDuplicate | libs/portfolio/history.py:134-138 | The duplicate scan finds a stored timestamp strictly within 30 of the new one exactly when one exists. |
| History.NewSnapshot | libs/portfolio/history.py:140-150 | The stored record carries `int(timestamp)` and the backfilled flag. It has a breakdown exactly when a non-empty one was given. |
| History.TruncKeepsDistance | libs/portfolio/history.py:136-141 | A stored timestamp at least 30 from `t` is still at least 30 from `int(t)`. |
| History.NotDuplicateAfterInsert | libs/portfolio/history.py:134-155 | A timestamp that was not a duplicate stays one after inserting a record at least 30 away from it. |
| History.AcceptedInsert | libs/portfolio/history.py:134-155 | Appending a non-duplicate and sorting is inserting it, and the list stays spaced. |
| History.InsertPermutes | libs/portfolio/history.py:152-155 | Appending and sorting keeps every element and adds exactly the new one, as a multiset. |
| History.InsertKeepsSorted | libs/portfolio/history.py:152-155 | Insertion keeps the list sorted by timestamp. |
| History.InsertKeepsSpaced | libs/portfolio/history.py:134-155 | Inserting a snapshot at least 30 from every stored timestamp keeps the list spaced. |
| History.SortIsSortedPermutation | libs/portfolio/history.py:155 | The stable sort by timestamp returns a sorted permutation of its input. |
| History.AppendThenSort | libs/portfolio/history.py:152-155 | On a sorted list, `append` then `sort` equals inserting after every element that is not later. |
| History.SortOfSorted | libs/portfolio/history.py:155 | Sorting an already sorted list changes nothing. |
| History.InsertAfterLast | libs/portfolio/history.py:152-155 | An element no earlier than any stored one goes to the end. |
| History.AtOrAfter | libs/portfolio/history.py:195-196 | The `>= start` filter keeps exactly the snapshots at or after `start`, as an order-preserving subsequence. |
| History.AtOrBefore | libs/portfolio/history.py:198-199 | The `<= end` filter keeps exactly the snapshots at or before `end`, as an order-preserving subsequence. |
| History.AtOrAfterLength | libs/portfolio/history.py:195-196 | The filter never grows the list, and removes nothing only when it returns the list itself. |
| History.AtOrAfterKeepsSpaced | libs/portfolio/history.py:400-403 | Filtering a spaced list keeps it spaced, which prune relies on. |
| History.AtOrBeforeKeepsSpaced | libs/portfolio/history.py:198-199 | Keeping the snapshots at or before an end time keeps a spaced list spaced. |
| History.PortfolioHistory.GetHistory | libs/portfolio/history.py:182-201 | On a valid store, returns exactly the stored snapshots within the inclusive bounds, either of which may be absent, in stored order, and still spaced. These facts determine the result, since a spaced list has no repeats. |
| History.Latest | libs/portfolio/history.py:203-207 | The latest snapshot is absent exactly for the empty list. |
| History.LatestIsFirstMax | libs/portfolio/history.py:206 | `max(key=timestamp)` returns the first snapshot that has the largest timestamp. |
| History.LatestOfSpacedIsLast | libs/portfolio/history.py:203-207 | On a spaced list the latest snapshot is the last one. |
| History.PortfolioHistory.GetLatestSnapshot | libs/portfolio/history.py:203-207 | The result is absent exactly when the store is empty. Otherwise it is a stored snapshot whose timestamp is no smaller than any other's. |
| History.IntervalSeconds | libs/portfolio/history.py:19-26 | 1m, 5m, 15m, 1h, 4h and 1d map to 60, 300, 900, 3600, 14400 and 86400 seconds. Unknown names map to 3600. Every result is at least 60 seconds. |
| History.IntervalForRange | libs/portfolio/history.py:238-240 | 1d maps to 15m, 1w to 1h, 1m to 4h, and 6m, 1y, ytd and all to 1d. Unknown ranges map to 1h. |
| History.RangeSeconds | libs/portfolio/history.py:40-46 | Exactly the five fixed ranges have a positive length. |
| History.RangePointCounts | libs/portfolio/history.py:29-46 | The fixed ranges span 96, 168, 180, 180 and 365 points of their chart intervals. |
| History.PortfolioHistory.GetRangeStartTime | libs/portfolio/history.py:213-236 | For 'ytd' the result is the year start. For 'all' it is the first snapshot when that is truthy, else one year back. For other ranges it is `now` minus the range length, with unknown ranges taking one week. Apart from 'ytd' and a recorded 'all', the result is before `now`. |
| History.UnderfilledBounds | libs/portfolio/history.py:260-264 | An empty window never needs a backfill. A non-empty window with no snapshots always does. |
| History.PortfolioHistory.ShouldBackfill | libs/portfolio/history.py:242-264 | False without a client. Otherwise true exactly when the snapshots in the window number fewer than 20% of the window length divided by the interval. |
| History.ShouldBackfillEmptyStore | libs/portfolio/history.py:248-264 | With a client and no snapshots, a backfill is needed exactly when the range start is before the end time. |
| History.UncoveredGridPoints | libs/portfolio/history.py:290-297 | Every kept point is `int(start) + k·interval`, at most `int(end)`, and not within interval/2 of an existing snapshot. |
| History.UncoveredGridGapped | libs/portfolio/history.py:290-297 | Kept points increase and are at least one interval apart. |
| History.UncoveredGridShape | libs/portfolio/history.py:290-297 | The filtered grid is on the grid, bounded, uncovered and gapped. |
| History.UncoveredGridComplete | libs/portfolio/history.py:290-297 | Every uncovered grid point up to `int(end)` is kept. |
| History.ExpectedTimes | libs/portfolio/history.py:290-297 | The `while` loop builds exactly the uncovered grid from `int(start)` to `int(end)`. |
| History.EveryKth | libs/portfolio/history.py:307 | `[::step]` is no longer than its input, and keeps the first element of a non-empty input. |
| History.EveryKthIndex | libs/portfolio/history.py:307 | Element `i` of `[::step]` is input element `i·step`. |
| History.EveryKthLength | libs/portfolio/history.py:307 | `[::step]` keeps at least `n` elements when `n·step` does not exceed the length. |
| History.EveryKthSubsequence | libs/portfolio/history.py:307 | `[::step]` is an order-preserving subsequence that keeps the spacing. |
| History.EveryKthIsSubsequence | libs/portfolio/history.py:307 | `[::step]` is an order-preserving subsequence. |
| History.CapPointsShape | libs/portfolio/history.py:302-307 | The cap leaves exactly `min(n, 500)` points, in order and spaced like the grid, and keeps the first grid point. |
| History.BackfillTimes | libs/portfolio/history.py:284-307 | Builds the visited points: the uncovered grid, then the cap. |
| History.BackfillPointsShape | libs/portfolio/history.py:284-307 | The visited points number at most 500. They are on-grid, within `[int(start), int(end)]`, uncovered, and an interval apart. |
| History.BackfillPointsAreFresh | libs/portfolio/history.py:290-307 | No visited point is a duplicate of a stored snapshot, and the points are at least 30 apart. |
| History.PairSymbolsMembers | libs/portfolio/history.py:310 | The symbols requested are exactly the USDT pairs of the non-USDT holdings. |
| History.ValueAt | libs/portfolio/history.py:318-328 | The value loop computes the USDT quantity plus Σ quantity·price over non-USDT assets, with a missing price counting as 0. |
| History.UnpricedHoldingsAddNothing | libs/portfolio/history.py:318-328 | With no prices for any pair, the value is the USDT quantity alone. |
| History.UnpricedMarketSum | libs/portfolio/history.py:323-328 | Non-USDT holdings without prices add 0. |
| History.BackfillSnapshots | libs/portfolio/history.py:315-340 | At most one snapshot is attempted per visited point. |
| History.BackfillSnapshotsShape | libs/portfolio/history.py:330-338 | Every attempted snapshot is backfilled, on a visited point, and has a positive total equal to the valuation at that point. |
| History.AddedPointKeepsOthersFresh | libs/portfolio/history.py:315-340 | Adding the snapshot of one point leaves every later point free of duplicates. |
| History.BackfillStepAdds | libs/portfolio/history.py:330-340 | A point with a positive value adds its snapshot to those attempted. |
| History.BackfillStepSkips | libs/portfolio/history.py:330-344 | A point whose price lookup fails, or whose value is not positive, adds nothing. |
| History.PortfolioHistory.ProgressStarts | libs/portfolio/history.py:313-315 | The add loop's invariant holds before the first point. |
| History.PortfolioHistory.ProgressEnds | libs/portfolio/history.py:315-346 | After the last point, the store holds the old snapshots plus exactly the attempted ones. |
| History.PortfolioHistory.VisitPoint | libs/portfolio/history.py:315-344 | One point keeps the loop invariant, and counts one exactly when it added a snapshot. |
| History.PortfolioHistory.AddBackfilled | libs/portfolio/history.py:313-346 | Every attempted add succeeds. The store gains exactly those snapshots, and the count is their number. |
| History.PortfolioHistory.BackfillHistory | libs/portfolio/history.py:266-346 | Without a client it returns 0 and changes nothing. Otherwise the store gains exactly the snapshots for the visited points with a positive value, as a multiset, and the result is their count, at most the number of visited points. A result of 0 means the snapshots and the metadata are unchanged. The last live time never changes. |
| History.MinValue | libs/portfolio/history.py:383 | `min(values)` is a stored value no larger than any other. |
| History.MaxValue | libs/portfolio/history.py:384 | `max(values)` is a stored value no smaller than any other. |
| History.ChangePercent | libs/portfolio/history.py:374-377 | 0 when the start value is not positive. Otherwise the result times start equals 100·(end − start), so its sign follows the sign of end minus start. |
| History.CalculateStats | libs/portfolio/history.py:358-385 | Empty input gives all zeros. Otherwise min ≤ start, end ≤ max, min and max are attained, and the change percent is computed from start and end. |
| History.StatsEndpoints | libs/portfolio/history.py:367-372 | The start and end values are those of an earliest and a latest snapshot. |
| History.StatsOfSorted | libs/portfolio/history.py:367-372 | On a sorted list, start and end are the first and last values. |
| History.PortfolioHistory.PruneOldData | libs/portfolio/history.py:387-411 | Keeps exactly the snapshots with timestamp ≥ now − days·86400, in order, and returns the number removed. Metadata is recomputed only if something was removed and something is left. |
| Exchange.Wrapped | libs/exchange/client.py:62-65 | An error the client raises itself names its call and carries no code or message. |
| Exchange.FromSdkError | libs/exchange/client.py:338-345 | A new-order error copies the venue's code and message. |
| Exchange.NotionalErrorIff | libs/exchange/client.py:347-349 | Notional exactly when the code is -1013 and "NOTIONAL" occurs in the message. |
| Exchange.LotSizeErrorIff | libs/exchange/client.py:351-353 | Lot size exactly when the code is -1013 and "LOT_SIZE" occurs in the message. |
| Exchange.WrappedErrorsAreUnclassified | libs/exchange/client.py:333-353 | Errors without a code are neither notional nor lot-size errors. |
| Exchange.BothClassificationsCanHold | libs/exchange/client.py:347-353 | One message can make both tests true. |
| Exchange.NonZeroBalances | libs/exchange/client.py:82-83 | Keeps exactly the balances with free > 0 or locked > 0, as an order-preserving subsequence. |
| Exchange.GetBalances | libs/exchange/client.py:67-85 | Fails exactly when the account read fails. Otherwise returns the filtered or the full balance list. |
| Exchange.FiltersByType | libs/exchange/client.py:152 | Every filter type present maps to one of its filters, of that type. |
| Exchange.FiltersByTypeLastWins | libs/exchange/client.py:152 | A type's entry is its last filter. |
| Exchange.SymbolFilters | libs/exchange/client.py:146-154 | Absent exactly when no entry has the symbol. Otherwise it holds the filters of the first entry for that symbol. |
| Exchange.LotStep | libs/exchange/client.py:167-176 | A step is applied only if it is positive. There is none without filters, without LOT_SIZE, or when stepSize ≤ 0. |
| Exchange.AdjustQuantity | libs/exchange/client.py:167-183 | Unchanged without a positive LOT_SIZE step. Otherwise the result is an exact multiple of the step, with 0 ≤ q − r < step for q ≥ 0, and symmetrically for q < 0. |
| Exchange.AdjustQuantityIdempotent | libs/exchange/client.py:183 | Adjusting an adjusted quantity returns it unchanged. |
| Exchange.TrailingZerosAllStripped | libs/exchange/client.py:186 | `rstrip('0')` leaves no trailing zero within the printed places. |
| Exchange.TrailingZerosSplit | libs/exchange/client.py:186 | The printed step is its stripped digits followed by the stripped zeros. |
| Exchange.StepPrecision | libs/exchange/client.py:186-190 | The precision is at most 8 places. |
| Exchange.RoundHalfEven | libs/exchange/client.py:192 | Rendering rounds to the nearest integer, within 0.5, and keeps integers. |
| Exchange.AdjustQuantityAsWritten | libs/exchange/client.py:167-192 | As written: without a step, the quantity is unchanged. With one, the result lies on the grid of the printed precision `p` (r·10^p is an integer) and within half a unit of that grid of the truncated multiple. |
| Exchange.RenderAtBounds | libs/exchange/client.py:192 | Rendering at a scale lands on that scale's grid, at most half a grid unit away. |
| Exchange.RenderKeepsExactMultiples | libs/exchange/client.py:192 | A multiple of a step that prints exactly survives the rendering unchanged. |
| Exchange.AsWrittenAgreesWhenStepPrints | libs/exchange/client.py:179-192 | For steps that print exactly, the code as written equals the exact truncation. |
| Exchange.UsualStepsPrintExactly | libs/exchange/client.py:186-190 | Each power-of-ten step 1, 0.1, …, 1e-8 prints at its own number of places (0 to 8) and is exact there. |
| Exchange.AsWrittenRoundsAboveQuantity | libs/exchange/client.py:186-192 | With step 1e-9 the code as written turns 0.6 into 1.0, above the requested quantity. |
| Exchange.AdjustQuantityFor | libs/exchange/client.py:156-183 | Fails exactly when the exchange info cannot be fetched. Otherwise it is the corrected adjustment with the symbol's filters. |
| Exchange.AdjustQuantityForMatchesCode | libs/exchange/client.py:156-192 | When the symbol's step prints exactly at eight places, the corrected adjustment equals the code as written. |
| Exchange.AsWrittenReadjustDrifts | libs/exchange/client.py:186-192 | With step 1.5e-8, the code as written renders 4.5e-8 as 4e-8. Adjusting that again, as `place_order` does, gives 3e-8. |
| Exchange.AdjustQuantityForIdempotent | libs/exchange/client.py:251-253 | With the corrected adjustment, `place_order` re-adjusts a quantity the caller already adjusted to the same value. |
| Exchange.PlaceOrderParams | libs/exchange/client.py:245-259 | Fails exactly when a quantity is given and the exchange info is unavailable. A quantity is adjusted and takes precedence over `quoteOrderQty`. `timeInForce` and `price` are present exactly for LIMIT. |
| Exchange.BinanceClient.PlaceOrder | libs/exchange/client.py:245-264 | Nothing is sent when the parameters cannot be built. Otherwise exactly one new order with those parameters is sent, and the venue's rejection is raised with its code. |
| Exchange.BinanceClient.CancelOrder | libs/exchange/client.py:277-280 | The cancel is always sent. A failure is raised without its code. |
| Exchange.RowFor | libs/exchange/client.py:304-325 | One row per balance: total = free + locked. The value is the total for USDT, and total × price (0 if none) for other assets. |
| Exchange.Rows | libs/exchange/client.py:304-325 | One row per balance, in order. |
| Exchange.CalculatePortfolioValue | libs/exchange/client.py:300-327 | The loop returns one row per balance, in order. The portfolio value is the sum of the row values. The USDT balance is the total of the last USDT entry, 0 without one. |
| Exchange.PortfolioValueSplits | libs/exchange/client.py:300-327 | The portfolio value is the USDT totals plus the market value of everything else. |
| Handlers.SessionState.constructor | libs/gui/handlers.py:23-24 | A session starts with an empty log. |
| Handlers.SessionState.AddLog | libs/gui/handlers.py:22-30 | The new entry goes in front, and the log grows by one. |
| Handlers.LogAllIsNewestFirst | libs/gui/handlers.py:26-30 | After a series of `add_log` calls, the log is those entries in reverse order, in front of the old log. |
| Handlers.PlaceAdjustedQuantity | libs/gui/handlers.py:50-57 | The order a form sends carries the corrected adjusted quantity, which `place_order` re-adjusts to itself. |
| Handlers.RefusalEffect | libs/gui/handlers.py:71-73 | A refused form logs one error and sends nothing. |
| Handlers.FormFailureEffect | libs/gui/handlers.py:92-97 | A caught client error logs one error, sends nothing more, and returns false. |
| Handlers.PlaceFromFormEffect | libs/gui/handlers.py:51-90 | A placement logs one entry and sends what `place_order` sends. It returns true exactly when one order was sent and accepted. |
| Handlers.BuyPrecedence | libs/gui/handlers.py:49-87 | A positive quantity is used first. Then a positive total sends a quote-amount MARKET order, or a LIMIT order of total/price. LIMIT without a positive price, or neither amount, returns false with nothing sent. Without exchange info, quantity orders send nothing. |
| Handlers.BuyEffect | libs/gui/handlers.py:44-97 | A buy logs one entry, in front. It returns true exactly when one order was sent and accepted, and every refusal path sends nothing. |
| Handlers.SellRejectsSmallEstimate | libs/gui/handlers.py:102-110 | An estimate (qty·price for LIMIT, qty·current price otherwise) under 10 returns false before any client call, whatever the venue. |
| Handlers.SellPlacesAdjustedQuantity | libs/gui/handlers.py:108-120 | An estimate of at least 10, exactly 10 included, sends a SELL of the adjusted quantity. |
| Handlers.SellEffect | libs/gui/handlers.py:100-131 | A sell logs one entry, in front, and returns true exactly when one order was sent and accepted. |
| Handlers.CancelNeedsBothIds | libs/gui/handlers.py:133-144 | An empty id or symbol returns false before any client call. Otherwise exactly one cancel is sent, and the result is true exactly when it succeeds. |
| Handlers.CancelLogsOnce | libs/gui/handlers.py:133-144 | A cancel logs one entry, in front, a success exactly when it returns true. |
| Handlers.GUIHandlers.HandleBuyOrder | libs/gui/handlers.py:44-97 | The buy handler's new requests, log and result are those of the buy specification. |
| Handlers.GUIHandlers.HandleSellOrder | libs/gui/handlers.py:100-131 | The sell handler's new requests, log and result are those of the sell specification. |
| Handlers.GUIHandlers.HandleCancelOrder | libs/gui/handlers.py:133-144 | The cancel handler's new requests, log and result are those of the cancel specification. |
| Handlers.ClassifyHoldings | libs/gui/handlers.py:178-193 | The classification loop builds exactly the sellable and dust lists of the specification. |
| Handlers.SellableMembers | libs/gui/handlers.py:181-193 | A holding is sellable exactly when it comes from a balance that is not USDT, has free > 0 and a priced USDT pair, and is worth ≥ 10. |
| Handlers.DustMembers | libs/gui/handlers.py:181-193 | A holding is dust exactly when it comes from such a balance worth < 10. |
| Handlers.ClassifiedExactlyOnce | libs/gui/handlers.py:181-193 | A priced non-USDT balance with something free lands in exactly one list: sellable at ≥ 10 (10 included), dust below. Any other balance lands in neither. |
| Handlers.ClassificationKeepsOrder | libs/gui/handlers.py:181-193 | Both lists keep the balances' order. |
| Handlers.FindFree | libs/gui/handlers.py:219-223 | The scan returns the free amount of the first entry for the asset, 0 without one. |
| Handlers.FirstFreeFindsFirst | libs/gui/handlers.py:246-250 | The scan yields the free amount of the first entry for the asset. |
| Handlers.FirstFreeAbsent | libs/gui/handlers.py:219-223 | Without an entry for the asset, the scan yields 0. |
| Handlers.CancelRequests | libs/gui/handlers.py:167-168 | One cancel request per open order. |
| Handlers.CancelsBeforeFailure | libs/gui/handlers.py:167-168 | At most one count per open order. |
| Handlers.CancelsBeforeFailureIsFirst | libs/gui/handlers.py:167-168 | The count stops exactly at the first failing cancel. |
| Handlers.CancelAllStops | libs/gui/handlers.py:165-169 | Cancels are sent up to and including the first failing one, which aborts. Without a failure, every cancel is sent. |
| Handlers.CancelAllOutcome | libs/gui/handlers.py:165-171 | The reset continues exactly when no cancel fails, having sent one cancel per order in order. Otherwise it aborts with the first failing cancel, whose request was sent. |
| Handlers.GUIHandlers.CancelOpenOrders | libs/gui/handlers.py:163-171 | The cancel step's new state and escaping error are those of the cancel phase. |
| Handlers.SellOneRequests | libs/gui/handlers.py:198-210 | One sell-pass iteration sends a MARKET SELL of the adjusted amount exactly when it is positive, and nothing else. |
| Handlers.SellPassRequests | libs/gui/handlers.py:195-210 | The pass sends one MARKET SELL per holding with a positive adjusted amount, in order. Errors do not stop the later holdings. |
| Handlers.SellRequestsArePositive | libs/gui/handlers.py:200-207 | Every sell the pass sends is a MARKET SELL of a positive quantity of a holding's pair. |
| Handlers.GUIHandlers.SellAsset | libs/gui/handlers.py:199-210 | One iteration's new state is that of the specification, errors caught and logged. |
| Handlers.GUIHandlers.SellAssets | libs/gui/handlers.py:196-210 | The loop's new state is that of the sell pass. |
| Handlers.DustSkippedUniformly | libs/gui/handlers.py:218-230 | Below 11 USDT every dust holding is skipped: nothing is sent, and one warning per holding is logged in order. |
| Handlers.SweepOneRequests | libs/gui/handlers.py:232-266 | A sweep sends the 11 USDT top-up. When that is accepted and the account is re-read, it sends a SELL of the adjusted refreshed balance, if positive. |
| Handlers.SweepRequestsShape | libs/gui/handlers.py:233-263 | A sweep's requests are the top-up, then at most one positive sell of the same pair. |
| Handlers.DustSweptInBlocks | libs/gui/handlers.py:225-266 | With ≥ 11 USDT every holding gets a top-up, then at most one positive sell, in order. |
| Handlers.GUIHandlers.SweepAsset | libs/gui/handlers.py:232-266 | One sweep's new state is that of the specification, errors caught per asset. |
| Handlers.GUIHandlers.SweepDust | libs/gui/handlers.py:225-266 | The dust loop's new state is that of the specification. |
| Handlers.SweepPhaseOutcome | libs/gui/handlers.py:213-223 | The dust stage aborts exactly when there is dust and the account read fails. |
| Handlers.LiquidatePhaseOutcome | libs/gui/handlers.py:175-266 | The second step aborts exactly when prices, balances, or the pre-sweep account read fail. |
| Handlers.GUIHandlers.Liquidate | libs/gui/handlers.py:173-266 | The second step's new state and escaping error are those of its specification. |
| Handlers.ResetFailsIffErrorEscapes | libs/gui/handlers.py:160-273 | The reset returns false exactly when a client error escapes: from open orders, any cancel, prices, balances, or the pre-sweep account. |
| Handlers.ResetSucceedsWhenReadsAnswer | libs/gui/handlers.py:162-269 | A venue that answers every read and accepts every cancel lets the reset succeed, whatever orders it rejects. |
| Handlers.ResetOnLiquidatedAccount | libs/gui/handlers.py:162-269 | Resetting an account with no open orders and only USDT sends no request, logs the start, "no open orders" and completion, and returns true. |
| Handlers.GUIHandlers.HandlePortfolioReset | libs/gui/handlers.py:149-273 | The reset's new requests, log and result are those of the reset specification. |

## Left out

- Persistence (`_load_data`, `_save_data`, libs/portfolio/history.py:62-95) is file I/O. Saving is a no-op, and a new store starts empty.
- `update_current_holdings` (libs/portfolio/history.py:162-180) is left out: it only stores a dict for the UI and saves it. `set_client` is left out too, because the price client is fixed at construction.
- `round(..., 2)` in `add_snapshot` and `calculate_stats`, the ISO `datetime` string, and float/string conversions are left out. Values are exact reals.
- `time.time()` and the local-time year start become parameters. `should_backfill` reads the clock twice, so it takes both readings (`now`, `endTime`).
- `get_historical_prices` is not part of this model. It is an oracle returning a price map, or nothing when it raises; a raise is caught per timestamp.
- The exchange-info cache (libs/exchange/client.py:126-133) is left out, and the venue's exchange info is one fixed answer. The code caches only a successful fetch, so a failed fetch is retried by the next `adjust_quantity`. In the model a failed fetch fails every later adjustment too; in the code, one sell-pass holding can fail on exchange info and the next succeed. This affects `SellPassRequests` and `BuyPrecedence`.
- Repeated reads are not independent: every venue answer is a function of the requests sent so far. So a read repeated with no request in between gives the same answer. One example is the pre-sweep `get_account_info` (libs/gui/handlers.py:216) after a successful `get_balances` (handlers.py:176) when no sell was sent; that read cannot fail in the model, though it can in the code. `SellPassRequests`, `LiquidatePhaseOutcome` and `ResetFailsIffErrorEscapes` rely on this.
- Exchange.AdjustQuantityFor: `adjust_quantity(symbol, q)` is modelled with the corrected truncation and not with the lossy rendering at libs/exchange/client.py:186-192, because the rendering is recorded as a finding. So `place_order` and the handlers send the corrected quantity. This equals the code's quantity whenever the step prints exactly at eight places (AdjustQuantityForMatchesCode), as every power-of-ten step from 1 to 1e-8 does (UsualStepsPrintExactly). For other steps the two can still agree on particular quantities, such as 0. The adjusted quantities in Handlers.BuyPrecedence, Handlers.SellPlacesAdjustedQuantity, Handlers.SellOneRequests and Handlers.SweepOneRequests are this corrected one.
- AdjustQuantityForIdempotent (Exchange.AdjustQuantityForIdempotent): idempotence is proved for the corrected adjustment only. As written, re-adjusting can change the quantity (AsWrittenReadjustDrifts).
- PlaceOrderParams (Exchange.PlaceOrderParams): the quantity placed is the corrected adjustment, not the code's rendering. The two agree when the step prints exactly (AdjustQuantityForMatchesCode).
- PlaceOrder (Exchange.BinanceClient.PlaceOrder): sends the corrected adjusted quantity, as PlaceOrderParams does.
- PlaceAdjustedQuantity (Handlers.PlaceAdjustedQuantity): "re-adjusts to itself" holds for the corrected adjustment. As written it can fail for steps that do not print exactly (AsWrittenReadjustDrifts).
- `get_balances` returns `[]` for a falsy account dict. The model's account read either yields a balance list or raises.
- `get_price`, `get_all_orders` and `get_all_symbols` are not called by the modelled code, so they are left out.
- Order types other than LIMIT and MARKET are left out, since the forms offer only these two.
- Python dict iteration order is left out. Filters are a map, while holdings and balances are sequences.
- Exceptions other than `BinanceClientError` (missing keys, bad floats) are not modelled.
- The reset's `status_callback` and `log_callback` are UI echoes of the log and are left out. So are `time.sleep(0.5)` and the `time.strftime` stamp: each handler call takes one `time` string for all its log entries.
- Log texts are structured messages carrying the values they interpolate, not formatted strings.
- `handle_asset_selection` and `refresh_data` are Streamlit UI and are left out.
- Exchange.AsWrittenAgreesWhenStepPrints: requires that the step print exactly at its eight-place precision. A general theorem that every step with at most 8 decimals does so is not proved; the power-of-ten steps from 1 to 1e-8 are proved concretely in UsualStepsPrintExactly.

## Findings

| source | as written | input that shows it | evidently intended | confidence | as-written member | corrected member |
|---|---|---|---|---|---|---|
| libs/exchange/client.py:186-192 | The precision comes from `f"{step_size:.8f}"`, which prints a step finer than 1e-8 as `0.00000000`. That gives precision 0, and the truncated quantity is then rounded to an integer. | stepSize 1e-9, quantity 0.6: truncation gives 0.6, rendering gives 1.0, more than requested | The truncated multiple, rendered without loss, so 0 ≤ q − r < step | not executed | Exchange.AsWrittenRoundsAboveQuantity (on Exchange.AdjustQuantityAsWritten) | Exchange.AdjustQuantity |
| libs/exchange/client.py:186-192 | A step with more than eight decimals is printed rounded, and the adjusted multiple is rendered at that printing's precision. `place_order` then adjusts the already adjusted quantity again, which can move it down by a further step. | stepSize 1.5e-8, quantity 4.5e-8: the handler's adjustment gives 4e-8, and `place_order` re-adjusts that to 3e-8 | Adjusting twice is adjusting once: an adjusted quantity is a multiple of the step and is sent unchanged | not executed | Exchange.AsWrittenReadjustDrifts (on Exchange.AdjustQuantityAsWritten) | Exchange.AdjustQuantityIdempotent |
