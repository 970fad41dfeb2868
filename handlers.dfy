/**
 * The GUI's action handlers: the buy, sell and cancel forms, the activity
 * log, and the portfolio reset, which cancels every open order, sells the
 * holdings worth selling and sweeps the dust.
 *
 * The Streamlit session is a `SessionState` holding the activity log, and
 * the exchange is the `BinanceClient` of the Exchange module. The client's
 * request history and the log together form a `World` value. Each handler
 * is a method proved equal to a function on that state, and the handlers'
 * properties are lemmas about those functions.
 */
module Handlers {
  import opened Common
  import opened Exchange

  /** The smallest order value, in USDT, that the forms and the reset sell outright. */
  const MIN_ORDER_VALUE: real := 10.0
  /** The quote amount the dust sweep buys, and the USDT it needs on hand to try. */
  const SWEEP_QUOTE: real := 11.0

  // ---------- The activity log ----------

  datatype Level = Info | Success | Warning | Error

  /** How the buy form logs what it ordered: base units, or a quote amount in USDT. */
  datatype LoggedAmount = Units(units: real) | QuoteUsdt(total: real)

  /** The text of a log entry, carrying the values its message interpolates. */
  datatype Message =
    | BuyNeedsPrice
    | BuyNeedsAmount
    | BuyPlaced(symbol: string, amount: LoggedAmount)
    | BuyTooSmall
    | BuyFailed(error: ClientError)
    | SellEstimateTooSmall(estimate: real)
    | SellPlaced(symbol: string, quantity: real)
    | SellTooSmall
    | SellLotSize(quantity: real)
    | SellFailed(error: ClientError)
    | CancelNeedsIds
    | CancelDone(orderId: string)
    | CancelFailed(error: ClientError)
    | ResetStarting
    | OpenOrdersCancelled(count: nat)
    | NoOpenOrders
    | AssetSold(quantity: real, asset: string)
    | AssetSellFailed(asset: string, error: ClientError)
    | DustFound(count: nat)
    | DustSkipped(asset: string, usdtBalance: real)
    | DustToppedUp(asset: string)
    | DustSwept(quantity: real, asset: string)
    | DustZero(asset: string)
    | DustFailed(asset: string, error: ClientError)
    | ResetComplete
    | ResetFailed(error: ClientError)

  /** One `{"msg", "level", "time"}` entry; the time is the caller's clock reading. */
  datatype LogEntry = LogEntry(msg: Message, level: Level, time: string)

  class SessionState {
    /** `st.session_state.activity_log`, newest entry first. */
    var activityLog: seq<LogEntry>

    /** A session without a log yet: the first `add_log` starts from an empty list. */
    constructor ()
      ensures activityLog == []
    {
      activityLog := [];
    }

    /** `add_log`: the new entry goes to index 0, in front of the older ones. */
    method AddLog(msg: Message, level: Level, time: string)
      modifies this
      ensures activityLog == [LogEntry(msg, level, time)] + old(activityLog)
    {
      activityLog := [LogEntry(msg, level, time)] + activityLog;
    }
  }

  /** The log after adding `entries` one at a time, oldest first. */
  function LogAll(log: seq<LogEntry>, entries: seq<LogEntry>): seq<LogEntry>
    decreases |entries|
  {
    if entries == [] then log else LogAll([entries[0]] + log, entries[1..])
  }

  function Reversed<T>(s: seq<T>): seq<T>
    decreases |s|
  {
    if s == [] then [] else Reversed(s[1..]) + [s[0]]
  }

  /** Prepending keeps the log newest first: it ends up holding the added entries in reverse. */
  lemma {:induction false} LogAllIsNewestFirst(log: seq<LogEntry>, entries: seq<LogEntry>)
    ensures LogAll(log, entries) == Reversed(entries) + log
    decreases |entries|
  {
    if entries != [] {
      LogAllIsNewestFirst([entries[0]] + log, entries[1..]);
      assert Reversed(entries[1..]) + ([entries[0]] + log) == (Reversed(entries[1..]) + [entries[0]]) + log;
    }
  }

  // ---------- The state the handlers act on ----------

  /** The client's request history and the session's activity log. */
  datatype World = World(requests: seq<Request>, log: seq<LogEntry>)

  function Logged(w: World, msg: Message, level: Level, time: string): World
  {
    World(w.requests, [LogEntry(msg, level, time)] + w.log)
  }

  function Sent(w: World, r: Request): World
  {
    World(w.requests + [r], w.log)
  }

  /** A handler's new state and the boolean it returns. */
  datatype Outcome = Outcome(world: World, ok: bool)

  /** What `place_order` leaves: the state after it and its outcome. */
  datatype Placed = Placed(world: World, outcome: Result<()>)

  /** `place_order` with the default time in force: nothing is sent when adjusting the quantity fails. */
  function PlaceOrderIn(v: Venue, w: World, symbol: string, side: Side, orderType: OrderType,
                        quantity: Option<real>, quoteOrderQty: Option<real>, price: Option<real>): Placed
  {
    match PlaceOrderParams(v, symbol, side, orderType, quantity, quoteOrderQty, price, DEFAULT_TIME_IN_FORCE)
    case Err(e) => Placed(w, Err(e))
    case Ok(p) => Placed(Sent(w, NewOrder(p)), NewOrderOutcome(v, w.requests, p))
  }

  // ---------- The order forms ----------

  /** Which form caught an error; the sell form quotes the quantity it was given. */
  datatype Form = BuyForm | SellForm(quantity: real)

  /** The message each form logs for a caught client error. */
  function FailureMessage(form: Form, e: ClientError): Message
  {
    if IsNotionalError(e) then (if form.BuyForm? then BuyTooSmall else SellTooSmall)
    else if form.SellForm? && IsLotSizeError(e) then SellLotSize(form.quantity)
    else if form.BuyForm? then BuyFailed(e)
    else SellFailed(e)
  }

  function FormFailure(w: World, form: Form, e: ClientError, time: string): Outcome
  {
    Outcome(Logged(w, FailureMessage(form, e), Error, time), false)
  }

  /** Places the order; logs `placed` and returns true, or logs the caught error and returns false. */
  function PlaceFromForm(v: Venue, w: World, form: Form, symbol: string, side: Side, orderType: OrderType,
                         quantity: Option<real>, quoteOrderQty: Option<real>, price: Option<real>,
                         placed: Message, time: string): Outcome
  {
    var pl := PlaceOrderIn(v, w, symbol, side, orderType, quantity, quoteOrderQty, price);
    if pl.outcome.Err? then FormFailure(pl.world, form, pl.outcome.error, time)
    else Outcome(Logged(pl.world, placed, Success, time), true)
  }

  /** `handle_buy_order`. */
  function BuyOrder(v: Venue, w: World, symbol: string, orderType: OrderType, quantity: real,
                    totalUsdt: real, price: real, time: string): Outcome
  {
    if quantity > 0.0 then
      match AdjustQuantityFor(v, symbol, quantity)
      case Err(e) => FormFailure(w, BuyForm, e, time)
      case Ok(a) =>
        PlaceFromForm(v, w, BuyForm, symbol, Buy, orderType, Some(a), None,
                      if orderType == Limit then Some(price) else None, BuyPlaced(symbol, Units(a)), time)
    else if totalUsdt > 0.0 then
      if orderType == Market then
        PlaceFromForm(v, w, BuyForm, symbol, Buy, Market, None, Some(totalUsdt), None,
                      BuyPlaced(symbol, QuoteUsdt(totalUsdt)), time)
      else if price <= 0.0 then Outcome(Logged(w, BuyNeedsPrice, Error, time), false)
      else
        match AdjustQuantityFor(v, symbol, totalUsdt / price)
        case Err(e) => FormFailure(w, BuyForm, e, time)
        case Ok(a) =>
          PlaceFromForm(v, w, BuyForm, symbol, Buy, orderType, Some(a), None, Some(price),
                        BuyPlaced(symbol, Units(a)), time)
    else Outcome(Logged(w, BuyNeedsAmount, Error, time), false)
  }

  /** The sell form's value check: the limit price for LIMIT orders, the current price otherwise. */
  function EstimatedValue(orderType: OrderType, quantity: real, price: real, currentPrice: real): real
  {
    if orderType == Limit then quantity * price else quantity * currentPrice
  }

  /** `handle_sell_order`. */
  function SellOrder(v: Venue, w: World, symbol: string, orderType: OrderType, quantity: real,
                     price: real, currentPrice: real, time: string): Outcome
  {
    var estimate := EstimatedValue(orderType, quantity, price, currentPrice);
    if estimate < MIN_ORDER_VALUE then Outcome(Logged(w, SellEstimateTooSmall(estimate), Error, time), false)
    else
      match AdjustQuantityFor(v, symbol, quantity)
      case Err(e) => FormFailure(w, SellForm(quantity), e, time)
      case Ok(a) =>
        PlaceFromForm(v, w, SellForm(quantity), symbol, Sell, orderType, Some(a), None,
                      if orderType == Limit then Some(price) else None, SellPlaced(symbol, a), time)
  }

  /** `handle_cancel_order`. */
  function CancelOrderForm(v: Venue, w: World, symbol: string, orderId: string, time: string): Outcome
  {
    if orderId == "" || symbol == "" then Outcome(Logged(w, CancelNeedsIds, Error, time), false)
    else
      var w1 := Sent(w, CancelRequest(symbol, orderId));
      if v.cancelOrder(w.requests, symbol, orderId).Some? then
        Outcome(Logged(w1, CancelFailed(Wrapped(CancelCall)), Error, time), false)
      else Outcome(Logged(w1, CancelDone(orderId), Success, time), true)
  }

  // ---------- Portfolio reset ----------

  /** A stage of the reset either continues or lets a client error escape to the outer handler. */
  datatype Step = Continue(world: World) | Abort(world: World, error: ClientError)

  /** A holding the reset acts on: the asset, its free amount and its USDT pair. */
  datatype Holding = Holding(asset: string, free: real, pair: string)

  function PairOf(asset: string): string
  {
    asset + QUOTE_ASSET
  }

  function HoldingOf(b: Balance): Holding
  {
    Holding(b.asset, b.free, PairOf(b.asset))
  }

  /** A balance the reset considers: not USDT, something free, and a priced USDT pair. */
  predicate Priced(b: Balance, prices: map<string, real>)
  {
    b.asset != QUOTE_ASSET && b.free > 0.0 && PairOf(b.asset) in prices
  }

  function HoldingValue(b: Balance, prices: map<string, real>): real
    requires Priced(b, prices)
  {
    b.free * prices[PairOf(b.asset)]
  }

  predicate IsSellable(b: Balance, prices: map<string, real>)
  {
    Priced(b, prices) && HoldingValue(b, prices) >= MIN_ORDER_VALUE
  }

  predicate IsDust(b: Balance, prices: map<string, real>)
  {
    Priced(b, prices) && HoldingValue(b, prices) < MIN_ORDER_VALUE
  }

  function SellableOf(bs: seq<Balance>, prices: map<string, real>): seq<Holding>
    decreases |bs|
  {
    if bs == [] then []
    else (if IsSellable(bs[0], prices) then [HoldingOf(bs[0])] else []) + SellableOf(bs[1..], prices)
  }

  function DustOf(bs: seq<Balance>, prices: map<string, real>): seq<Holding>
    decreases |bs|
  {
    if bs == [] then []
    else (if IsDust(bs[0], prices) then [HoldingOf(bs[0])] else []) + DustOf(bs[1..], prices)
  }

  /** The holding of every balance, in order. */
  function Holdings(bs: seq<Balance>): seq<Holding>
    decreases |bs|
  {
    if bs == [] then [] else [HoldingOf(bs[0])] + Holdings(bs[1..])
  }

  /** The `for b in balances: if b['asset'] == asset: ...; break` scan: the first match's free amount, else 0. */
  function FirstFree(bs: seq<Balance>, asset: string): real
    decreases |bs|
  {
    if bs == [] then 0.0
    else if bs[0].asset == asset then bs[0].free
    else FirstFree(bs[1..], asset)
  }

  /** Entry `i` is the first entry for `asset`. */
  predicate FirstEntryAt(bs: seq<Balance>, asset: string, i: int)
  {
    0 <= i < |bs| && bs[i].asset == asset && forall j :: 0 <= j < i ==> bs[j].asset != asset
  }

  /** The scan yields the free amount of the first entry for the asset. */
  lemma {:induction false} FirstFreeFindsFirst(bs: seq<Balance>, asset: string, i: int)
    requires FirstEntryAt(bs, asset, i)
    ensures FirstFree(bs, asset) == bs[i].free
    decreases |bs|
  {
    if i > 0 {
      assert bs[0].asset != asset;
      forall j | 0 <= j < i - 1 ensures bs[1..][j].asset != asset {
        assert bs[1..][j] == bs[j + 1];
      }
      FirstFreeFindsFirst(bs[1..], asset, i - 1);
    }
  }

  /** Without an entry for the asset, the scan yields 0. */
  lemma {:induction false} FirstFreeAbsent(bs: seq<Balance>, asset: string)
    requires forall i :: 0 <= i < |bs| ==> bs[i].asset != asset
    ensures FirstFree(bs, asset) == 0.0
    decreases |bs|
  {
    if bs != [] {
      assert bs[0].asset != asset;
      forall i | 0 <= i < |bs[1..]| ensures bs[1..][i].asset != asset {
        assert bs[1..][i] == bs[i + 1];
      }
      FirstFreeAbsent(bs[1..], asset);
    }
  }

  /** Cancels the orders in turn; the first failing cancel escapes, after its request was sent. */
  function CancelAll(v: Venue, w: World, os: seq<OpenOrder>): Step
    decreases |os|
  {
    if os == [] then Continue(w)
    else
      var w1 := Sent(w, CancelRequest(os[0].symbol, os[0].orderId));
      if v.cancelOrder(w.requests, os[0].symbol, os[0].orderId).Some? then Abort(w1, Wrapped(CancelCall))
      else CancelAll(v, w1, os[1..])
  }

  /** Step 1: fetch the open orders and cancel them all. */
  function CancelPhase(v: Venue, w: World, time: string): Step
  {
    match OpenOrders(v, w.requests)
    case Err(e) => Abort(w, e)
    case Ok(os) =>
      if os == [] then Continue(Logged(w, NoOpenOrders, Info, time))
      else
        match CancelAll(v, w, os)
        case Abort(w1, e) => Abort(w1, e)
        case Continue(w1) => Continue(Logged(w1, OpenOrdersCancelled(|os|), Success, time))
  }

  /** One iteration of the sell pass; a client error is caught and logged. */
  function SellOne(v: Venue, w: World, h: Holding, time: string): World
  {
    match AdjustQuantityFor(v, h.pair, h.free)
    case Err(e) => Logged(w, AssetSellFailed(h.asset, e), Error, time)
    case Ok(q) =>
      if q <= 0.0 then w
      else
        var sell := PlaceOrderIn(v, w, h.pair, Sell, Market, Some(q), None, None);
        if sell.outcome.Err? then Logged(sell.world, AssetSellFailed(h.asset, sell.outcome.error), Error, time)
        else Logged(sell.world, AssetSold(q, h.asset), Success, time)
  }

  /** Pass 1: sell every sellable holding at market. */
  function SellPass(v: Venue, w: World, hs: seq<Holding>, time: string): World
    decreases |hs|
  {
    if hs == [] then w else SellPass(v, SellOne(v, w, hs[0], time), hs[1..], time)
  }

  /** The sell half of a sweep: sell the adjusted refreshed balance if it is positive. */
  function SweepSell(v: Venue, w: World, h: Holding, balance: real, time: string): World
  {
    match AdjustQuantityFor(v, h.pair, balance)
    case Err(e) => Logged(w, DustFailed(h.asset, e), Error, time)
    case Ok(q) =>
      if q <= 0.0 then Logged(w, DustZero(h.asset), Error, time)
      else
        var sell := PlaceOrderIn(v, w, h.pair, Sell, Market, Some(q), None, None);
        if sell.outcome.Err? then Logged(sell.world, DustFailed(h.asset, sell.outcome.error), Error, time)
        else Logged(sell.world, DustSwept(q, h.asset), Success, time)
  }

  /** Sweeping one dust holding: buy 11 USDT of it, re-read its free balance, sell all of it. */
  function SweepOne(v: Venue, w: World, h: Holding, time: string): World
  {
    var buy := PlaceOrderIn(v, w, h.pair, Buy, Market, None, Some(SWEEP_QUOTE), None);
    if buy.outcome.Err? then Logged(buy.world, DustFailed(h.asset, buy.outcome.error), Error, time)
    else
      var w1 := Logged(buy.world, DustToppedUp(h.asset), Info, time);
      match AccountInfo(v, w1.requests)
      case Err(e) => Logged(w1, DustFailed(h.asset, e), Error, time)
      case Ok(account) => SweepSell(v, w1, h, FirstFree(account, h.asset), time)
  }

  /** One iteration of the dust loop: skipped (and the loop goes on) while USDT is short. */
  function DustStep(v: Venue, w: World, h: Holding, usdtBalance: real, time: string): World
  {
    if usdtBalance < SWEEP_QUOTE then Logged(w, DustSkipped(h.asset, usdtBalance), Warning, time)
    else SweepOne(v, w, h, time)
  }

  /** Pass 2: the dust loop, against the USDT balance read once before it. */
  function DustSweep(v: Venue, w: World, hs: seq<Holding>, usdtBalance: real, time: string): World
    decreases |hs|
  {
    if hs == [] then w else DustSweep(v, DustStep(v, w, hs[0], usdtBalance, time), hs[1..], usdtBalance, time)
  }

  /** The dust stage: read the account's USDT once, then sweep. */
  function SweepPhase(v: Venue, w: World, dust: seq<Holding>, time: string): Step
  {
    if dust == [] then Continue(w)
    else
      var w1 := Logged(w, DustFound(|dust|), Info, time);
      match AccountInfo(v, w1.requests)
      case Err(e) => Abort(w1, e)
      case Ok(account) => Continue(DustSweep(v, w1, dust, FirstFree(account, QUOTE_ASSET), time))
  }

  /** Step 2: fetch prices and non-zero balances, classify, sell, sweep. */
  function LiquidatePhase(v: Venue, w: World, time: string): Step
  {
    match AllPrices(v, w.requests)
    case Err(e) => Abort(w, e)
    case Ok(prices) =>
      match GetBalances(v, w.requests, true)
      case Err(e) => Abort(w, e)
      case Ok(bs) =>
        SweepPhase(v, SellPass(v, w, SellableOf(bs, prices), time), DustOf(bs, prices), time)
  }

  /** `handle_portfolio_reset`. */
  function Reset(v: Venue, w: World, time: string): Outcome
  {
    var w0 := Logged(w, ResetStarting, Warning, time);
    var steps :=
      match CancelPhase(v, w0, time)
      case Abort(w1, e) => Abort(w1, e)
      case Continue(w1) => LiquidatePhase(v, w1, time);
    match steps
    case Abort(w1, e) => Outcome(Logged(w1, ResetFailed(e), Error, time), false)
    case Continue(w1) => Outcome(Logged(w1, ResetComplete, Success, time), true)
  }

  function StepOf(w: World, err: Option<ClientError>): Step
  {
    if err.None? then Continue(w) else Abort(w, err.value)
  }

  // ---------- The loops that only compute ----------

  /** The sellable list of a list grown at its end: the new balance's holding, if it qualifies, goes last. */
  lemma {:induction false} SellableSnoc(bs: seq<Balance>, b: Balance, prices: map<string, real>)
    ensures SellableOf(bs + [b], prices)
            == SellableOf(bs, prices) + (if IsSellable(b, prices) then [HoldingOf(b)] else [])
    decreases |bs|
  {
    var u := if IsSellable(b, prices) then [HoldingOf(b)] else [];
    if bs == [] {
      assert [b][1..] == [];
      assert SellableOf([b], prices) == u + SellableOf([], prices);
    } else {
      var t := if IsSellable(bs[0], prices) then [HoldingOf(bs[0])] else [];
      assert (bs + [b])[0] == bs[0];
      assert (bs + [b])[1..] == bs[1..] + [b];
      assert SellableOf(bs + [b], prices) == t + SellableOf(bs[1..] + [b], prices);
      SellableSnoc(bs[1..], b, prices);
      assert SellableOf(bs, prices) == t + SellableOf(bs[1..], prices);
      assert t + (SellableOf(bs[1..], prices) + u) == (t + SellableOf(bs[1..], prices)) + u;
    }
  }

  /** The dust list of a list grown at its end: the new balance's holding, if it qualifies, goes last. */
  lemma {:induction false} DustSnoc(bs: seq<Balance>, b: Balance, prices: map<string, real>)
    ensures DustOf(bs + [b], prices) == DustOf(bs, prices) + (if IsDust(b, prices) then [HoldingOf(b)] else [])
    decreases |bs|
  {
    var u := if IsDust(b, prices) then [HoldingOf(b)] else [];
    if bs == [] {
      assert [b][1..] == [];
      assert DustOf([b], prices) == u + DustOf([], prices);
    } else {
      var t := if IsDust(bs[0], prices) then [HoldingOf(bs[0])] else [];
      assert (bs + [b])[0] == bs[0];
      assert (bs + [b])[1..] == bs[1..] + [b];
      assert DustOf(bs + [b], prices) == t + DustOf(bs[1..] + [b], prices);
      DustSnoc(bs[1..], b, prices);
      assert DustOf(bs, prices) == t + DustOf(bs[1..], prices);
      assert t + (DustOf(bs[1..], prices) + u) == (t + DustOf(bs[1..], prices)) + u;
    }
  }

  /** The classification loop of the reset. */
  method ClassifyHoldings(balances: seq<Balance>, prices: map<string, real>)
    returns (sellable: seq<Holding>, dust: seq<Holding>)
    ensures sellable == SellableOf(balances, prices) && dust == DustOf(balances, prices)
  {
    sellable, dust := [], [];
    for i := 0 to |balances|
      invariant sellable == SellableOf(balances[..i], prices)
      invariant dust == DustOf(balances[..i], prices)
    {
      var b := balances[i];
      assert balances[..i + 1] == balances[..i] + [b];
      SellableSnoc(balances[..i], b, prices);
      DustSnoc(balances[..i], b, prices);
      if b.asset != QUOTE_ASSET && b.free > 0.0 {
        var pair := b.asset + QUOTE_ASSET;
        if pair in prices {
          var value := b.free * prices[pair];
          if value >= MIN_ORDER_VALUE {
            assert IsSellable(b, prices) && !IsDust(b, prices);
            sellable := sellable + [Holding(b.asset, b.free, pair)];
          } else {
            assert IsDust(b, prices) && !IsSellable(b, prices);
            dust := dust + [Holding(b.asset, b.free, pair)];
          }
        } else {
          assert !IsSellable(b, prices) && !IsDust(b, prices);
        }
      } else {
        assert !IsSellable(b, prices) && !IsDust(b, prices);
      }
    }
    assert balances[..|balances|] == balances;
  }

  method FindFree(balances: seq<Balance>, asset: string) returns (free: real)
    ensures free == FirstFree(balances, asset)
  {
    free := 0.0;
    var i := 0;
    while i < |balances|
      invariant 0 <= i <= |balances|
      invariant FirstFree(balances[i..], asset) == FirstFree(balances, asset)
    {
      assert balances[i..][1..] == balances[i + 1..];
      if balances[i].asset == asset {
        free := balances[i].free;
        return;
      }
      i := i + 1;
    }
  }

  // ---------- Properties of the order forms ----------

  /** The request a placed form order carries: the quantity it was given is adjusted once more, to itself. */
  lemma PlaceAdjustedQuantity(v: Venue, symbol: string, side: Side, orderType: OrderType, q: real,
                              price: Option<real>)
    requires AdjustQuantityFor(v, symbol, q).Ok?
    ensures var a := AdjustQuantityFor(v, symbol, q).value;
            PlaceOrderParams(v, symbol, side, orderType, Some(a), None, price, DEFAULT_TIME_IN_FORCE)
            == Ok(OrderParams(symbol, side, orderType, Quantity(a),
                              if orderType == Limit then Some(LimitTerms(DEFAULT_TIME_IN_FORCE, price)) else None))
  {
    AdjustQuantityForIdempotent(v, symbol, q);
  }

  /** The LIMIT terms a form order carries. */
  function LimitFor(orderType: OrderType, price: real): Option<LimitTerms>
  {
    if orderType == Limit then Some(LimitTerms(DEFAULT_TIME_IN_FORCE, Some(price))) else None
  }

  /** The handler logged exactly one entry, in front, stamped `time`: a success exactly when it returns true. */
  predicate LogsOnce(w: World, r: Outcome, time: string)
  {
    |r.world.log| == |w.log| + 1 && r.world.log[1..] == w.log && r.world.log[0].time == time
    && (r.world.log[0].level == Success <==> r.ok)
  }

  /** History `r` is history `h` plus one new order, which the venue accepted. */
  predicate AcceptedOnce(v: Venue, h: seq<Request>, r: seq<Request>)
  {
    |r| == |h| + 1 && r[..|h|] == h && r[|h|].NewOrder? && v.newOrder(h, r[|h|].params).None?
  }

  /** A form that refuses its input logs one error and sends nothing. */
  lemma RefusalEffect(w: World, msg: Message, time: string)
    ensures var r := Outcome(Logged(w, msg, Error, time), false);
            LogsOnce(w, r, time) && r.world.requests == w.requests
  {
    ConsParts(LogEntry(msg, Error, time), w.log);
  }

  /** A caught client error logs one error and sends nothing more. */
  lemma FormFailureEffect(w: World, form: Form, e: ClientError, time: string)
    ensures var r := FormFailure(w, form, e, time);
            LogsOnce(w, r, time) && r.world.requests == w.requests && !r.ok
  {
    RefusalEffect(w, FailureMessage(form, e), time);
  }

  /**
   * Placing from a form logs one entry and sends what `place_order` sends; it
   * returns true exactly when one order was sent and the venue accepted it.
   */
  lemma PlaceFromFormEffect(v: Venue, w: World, form: Form, symbol: string, side: Side, orderType: OrderType,
                            quantity: Option<real>, quoteOrderQty: Option<real>, price: Option<real>,
                            placed: Message, time: string)
    ensures var r := PlaceFromForm(v, w, form, symbol, side, orderType, quantity, quoteOrderQty, price, placed, time);
            && LogsOnce(w, r, time)
            && r.world.requests == PlaceOrderIn(v, w, symbol, side, orderType, quantity, quoteOrderQty, price).world.requests
            && (r.ok <==> AcceptedOnce(v, w.requests, r.world.requests))
  {
    var pl := PlaceOrderIn(v, w, symbol, side, orderType, quantity, quoteOrderQty, price);
    match PlaceOrderParams(v, symbol, side, orderType, quantity, quoteOrderQty, price, DEFAULT_TIME_IN_FORCE)
    case Err(e) =>
      assert pl == Placed(w, Err(e));
      FormFailureEffect(w, form, e, time);
    case Ok(p) =>
      assert pl.world == Sent(w, NewOrder(p));
      SnocParts(w.requests, NewOrder(p));
      if pl.outcome.Err? {
        FormFailureEffect(pl.world, form, pl.outcome.error, time);
      } else {
        ConsParts(LogEntry(placed, Success, time), w.log);
      }
  }

  /**
   * The buy form's precedence: a positive quantity first, then a positive
   * total (a quote-amount order at MARKET, a quantity of total / price at
   * LIMIT, refused without a positive price), and nothing without either.
   */
  lemma BuyPrecedence(v: Venue, w: World, symbol: string, orderType: OrderType, quantity: real,
                      totalUsdt: real, price: real, time: string)
    ensures var r := BuyOrder(v, w, symbol, orderType, quantity, totalUsdt, price, time);
      && (quantity > 0.0 && v.exchangeInfo.Some? ==>
            r.world.requests == w.requests + [NewOrder(OrderParams(symbol, Buy, orderType,
              Quantity(AdjustQuantity(SymbolFilters(v.exchangeInfo.value, symbol), quantity)),
              LimitFor(orderType, price)))])
      && (quantity <= 0.0 && totalUsdt > 0.0 && orderType == Market ==>
            r.world.requests == w.requests + [NewOrder(OrderParams(symbol, Buy, Market, QuoteOrderQty(totalUsdt), None))])
      && (quantity <= 0.0 && totalUsdt > 0.0 && orderType == Limit && price > 0.0 && v.exchangeInfo.Some? ==>
            r.world.requests == w.requests + [NewOrder(OrderParams(symbol, Buy, Limit,
              Quantity(AdjustQuantity(SymbolFilters(v.exchangeInfo.value, symbol), totalUsdt / price)),
              LimitFor(Limit, price)))])
      && (quantity <= 0.0 && totalUsdt > 0.0 && orderType == Limit && price <= 0.0 ==>
            !r.ok && r.world.requests == w.requests)
      && (quantity <= 0.0 && totalUsdt <= 0.0 ==> !r.ok && r.world.requests == w.requests)
      && (v.exchangeInfo.None? && (quantity > 0.0 || orderType == Limit) ==> !r.ok && r.world.requests == w.requests)
  {
    BuyEffect(v, w, symbol, orderType, quantity, totalUsdt, price, time);
    if quantity > 0.0 && v.exchangeInfo.Some? {
      PlaceAdjustedQuantity(v, symbol, Buy, orderType, quantity, if orderType == Limit then Some(price) else None);
    } else if quantity <= 0.0 && totalUsdt > 0.0 && orderType == Limit && price > 0.0 && v.exchangeInfo.Some? {
      PlaceAdjustedQuantity(v, symbol, Buy, Limit, totalUsdt / price, Some(price));
    }
  }

  /**
   * The sell form refuses an estimated value under 10 USDT before any client
   * call: no request, and the same outcome whatever the venue.
   */
  lemma SellRejectsSmallEstimate(v: Venue, v': Venue, w: World, symbol: string, orderType: OrderType,
                                 quantity: real, price: real, currentPrice: real, time: string)
    requires EstimatedValue(orderType, quantity, price, currentPrice) < MIN_ORDER_VALUE
    ensures var r := SellOrder(v, w, symbol, orderType, quantity, price, currentPrice, time);
            !r.ok && r.world.requests == w.requests
            && r == SellOrder(v', w, symbol, orderType, quantity, price, currentPrice, time)
  {
  }

  /** An estimate of at least 10 USDT, exactly 10 included, goes on to a SELL of the adjusted quantity. */
  lemma SellPlacesAdjustedQuantity(v: Venue, w: World, symbol: string, orderType: OrderType,
                                   quantity: real, price: real, currentPrice: real, time: string)
    requires EstimatedValue(orderType, quantity, price, currentPrice) >= MIN_ORDER_VALUE
    requires v.exchangeInfo.Some?
    ensures var r := SellOrder(v, w, symbol, orderType, quantity, price, currentPrice, time);
            r.world.requests == w.requests + [NewOrder(OrderParams(symbol, Sell, orderType,
              Quantity(AdjustQuantity(SymbolFilters(v.exchangeInfo.value, symbol), quantity)),
              LimitFor(orderType, price)))]
  {
    PlaceAdjustedQuantity(v, symbol, Sell, orderType, quantity, if orderType == Limit then Some(price) else None);
  }

  /** Cancelling needs both an order id and a symbol; without them nothing reaches the venue. */
  lemma CancelNeedsBothIds(v: Venue, v': Venue, w: World, symbol: string, orderId: string, time: string)
    ensures var r := CancelOrderForm(v, w, symbol, orderId, time);
      && (orderId == "" || symbol == "" ==>
            !r.ok && r.world.requests == w.requests && r == CancelOrderForm(v', w, symbol, orderId, time))
      && (orderId != "" && symbol != "" ==>
            r.world.requests == w.requests + [CancelRequest(symbol, orderId)]
            && (r.ok <==> v.cancelOrder(w.requests, symbol, orderId).None?))
  {
  }

  /**
   * A buy logs exactly one entry, in front, and returns true exactly when it
   * sent one order and the venue accepted it. A refused or failed buy sends
   * nothing, except the order the venue rejected. Every path also sends what
   * `place_order` sends for the order it builds.
   */
  lemma BuyEffect(v: Venue, w: World, symbol: string, orderType: OrderType, quantity: real,
                  totalUsdt: real, price: real, time: string)
    ensures var r := BuyOrder(v, w, symbol, orderType, quantity, totalUsdt, price, time);
            LogsOnce(w, r, time) && (r.ok <==> AcceptedOnce(v, w.requests, r.world.requests))
            && (quantity > 0.0 && AdjustQuantityFor(v, symbol, quantity).Ok? ==>
                  r.world.requests == PlaceOrderIn(v, w, symbol, Buy, orderType,
                    Some(AdjustQuantityFor(v, symbol, quantity).value), None,
                    if orderType == Limit then Some(price) else None).world.requests)
            && (quantity <= 0.0 && totalUsdt > 0.0 && orderType == Market ==>
                  r.world.requests == PlaceOrderIn(v, w, symbol, Buy, Market, None, Some(totalUsdt), None).world.requests)
            && (quantity <= 0.0 && totalUsdt > 0.0 && orderType == Limit && price > 0.0 &&
                AdjustQuantityFor(v, symbol, totalUsdt / price).Ok? ==>
                  r.world.requests == PlaceOrderIn(v, w, symbol, Buy, Limit,
                    Some(AdjustQuantityFor(v, symbol, totalUsdt / price).value), None, Some(price)).world.requests)
            && (quantity > 0.0 && AdjustQuantityFor(v, symbol, quantity).Err? ==> r.world.requests == w.requests)
            && (quantity <= 0.0 && totalUsdt > 0.0 && orderType == Limit && price > 0.0 &&
                AdjustQuantityFor(v, symbol, totalUsdt / price).Err?
                ==> r.world.requests == w.requests)
            && (quantity <= 0.0 && (totalUsdt <= 0.0 || (orderType == Limit && price <= 0.0)) ==>
                  r.world.requests == w.requests)
  {
    if quantity > 0.0 {
      match AdjustQuantityFor(v, symbol, quantity)
      case Err(e) => FormFailureEffect(w, BuyForm, e, time);
      case Ok(a) =>
        PlaceFromFormEffect(v, w, BuyForm, symbol, Buy, orderType, Some(a), None,
                            if orderType == Limit then Some(price) else None, BuyPlaced(symbol, Units(a)), time);
    } else if totalUsdt > 0.0 {
      if orderType == Market {
        PlaceFromFormEffect(v, w, BuyForm, symbol, Buy, Market, None, Some(totalUsdt), None,
                            BuyPlaced(symbol, QuoteUsdt(totalUsdt)), time);
      } else if price <= 0.0 {
        RefusalEffect(w, BuyNeedsPrice, time);
      } else {
        match AdjustQuantityFor(v, symbol, totalUsdt / price)
        case Err(e) => FormFailureEffect(w, BuyForm, e, time);
        case Ok(a) =>
          PlaceFromFormEffect(v, w, BuyForm, symbol, Buy, orderType, Some(a), None, Some(price),
                              BuyPlaced(symbol, Units(a)), time);
      }
    } else {
      RefusalEffect(w, BuyNeedsAmount, time);
    }
  }

  /**
   * A sell logs exactly one entry, in front, and returns true exactly when it
   * sent one order and the venue accepted it.
   */
  lemma SellEffect(v: Venue, w: World, symbol: string, orderType: OrderType, quantity: real,
                   price: real, currentPrice: real, time: string)
    ensures var r := SellOrder(v, w, symbol, orderType, quantity, price, currentPrice, time);
            LogsOnce(w, r, time) && (r.ok <==> AcceptedOnce(v, w.requests, r.world.requests))
  {
    var estimate := EstimatedValue(orderType, quantity, price, currentPrice);
    if estimate < MIN_ORDER_VALUE {
      RefusalEffect(w, SellEstimateTooSmall(estimate), time);
    } else {
      match AdjustQuantityFor(v, symbol, quantity)
      case Err(e) => FormFailureEffect(w, SellForm(quantity), e, time);
      case Ok(a) =>
        PlaceFromFormEffect(v, w, SellForm(quantity), symbol, Sell, orderType, Some(a), None,
                            if orderType == Limit then Some(price) else None, SellPlaced(symbol, a), time);
    }
  }

  /** A cancel logs exactly one entry, in front: a success exactly when it returns true. */
  lemma CancelLogsOnce(v: Venue, w: World, symbol: string, orderId: string, time: string)
    ensures LogsOnce(w, CancelOrderForm(v, w, symbol, orderId, time), time)
  {
    if orderId == "" || symbol == "" {
      RefusalEffect(w, CancelNeedsIds, time);
    } else {
      ConsParts(LogEntry(CancelDone(orderId), Success, time), w.log);
      ConsParts(LogEntry(CancelFailed(Wrapped(CancelCall)), Error, time), w.log);
    }
  }

  // ---------- Properties of the reset ----------

  /** The sellable test read on a holding: not USDT, something free, a priced pair, worth at least 10 USDT. */
  predicate SellableHolding(h: Holding, prices: map<string, real>)
  {
    h.asset != QUOTE_ASSET && h.free > 0.0 && h.pair in prices && h.free * prices[h.pair] >= MIN_ORDER_VALUE
  }

  /** The dust test read on a holding: as for sellable, but worth less than 10 USDT. */
  predicate DustHolding(h: Holding, prices: map<string, real>)
  {
    h.asset != QUOTE_ASSET && h.free > 0.0 && h.pair in prices && h.free * prices[h.pair] < MIN_ORDER_VALUE
  }

  lemma ClassOfHolding(b: Balance, prices: map<string, real>)
    ensures IsSellable(b, prices) == SellableHolding(HoldingOf(b), prices)
    ensures IsDust(b, prices) == DustHolding(HoldingOf(b), prices)
  {
  }

  /** The sellable list holds exactly the balances' holdings that pass the sellable test. */
  lemma {:induction false} SellableMembers(bs: seq<Balance>, prices: map<string, real>, h: Holding)
    ensures h in SellableOf(bs, prices) <==> h in Holdings(bs) && SellableHolding(h, prices)
    decreases |bs|
  {
    if bs != [] {
      SellableMembers(bs[1..], prices, h);
      ClassOfHolding(bs[0], prices);
      assert Holdings(bs) == [HoldingOf(bs[0])] + Holdings(bs[1..]);
    }
  }

  /** The dust list holds exactly the balances' holdings that pass the dust test. */
  lemma {:induction false} DustMembers(bs: seq<Balance>, prices: map<string, real>, h: Holding)
    ensures h in DustOf(bs, prices) <==> h in Holdings(bs) && DustHolding(h, prices)
    decreases |bs|
  {
    if bs != [] {
      DustMembers(bs[1..], prices, h);
      ClassOfHolding(bs[0], prices);
      assert Holdings(bs) == [HoldingOf(bs[0])] + Holdings(bs[1..]);
    }
  }

  lemma {:induction false} HoldingsMembers(bs: seq<Balance>, b: Balance)
    requires b in bs
    ensures HoldingOf(b) in Holdings(bs)
    decreases |bs|
  {
    if b != bs[0] {
      assert b in bs[1..];
      HoldingsMembers(bs[1..], b);
    }
  }

  /**
   * Every non-USDT balance with something free and a priced USDT pair lands
   * in exactly one list, sellable when worth at least 10 USDT (exactly 10
   * included) and dust otherwise; every other balance lands in neither.
   */
  lemma ClassifiedExactlyOnce(bs: seq<Balance>, prices: map<string, real>, b: Balance)
    requires b in bs
    ensures Priced(b, prices) ==>
              (HoldingOf(b) in SellableOf(bs, prices) <==> HoldingValue(b, prices) >= MIN_ORDER_VALUE)
              && (HoldingOf(b) in DustOf(bs, prices) <==> HoldingValue(b, prices) < MIN_ORDER_VALUE)
    ensures !Priced(b, prices) ==> HoldingOf(b) !in SellableOf(bs, prices) && HoldingOf(b) !in DustOf(bs, prices)
  {
    HoldingsMembers(bs, b);
    SellableMembers(bs, prices, HoldingOf(b));
    DustMembers(bs, prices, HoldingOf(b));
    ClassOfHolding(b, prices);
  }

  /** Both lists keep the order of the balances they come from. */
  lemma {:induction false} ClassificationKeepsOrder(bs: seq<Balance>, prices: map<string, real>)
    ensures IsSubsequence(SellableOf(bs, prices), Holdings(bs))
    ensures IsSubsequence(DustOf(bs, prices), Holdings(bs))
    decreases |bs|
  {
    if bs != [] {
      ClassificationKeepsOrder(bs[1..], prices);
      var hs := Holdings(bs);
      assert hs[0] == HoldingOf(bs[0]) && hs[1..] == Holdings(bs[1..]);
      var s := SellableOf(bs, prices);
      if IsSellable(bs[0], prices) {
        assert s[0] == hs[0] && s[1..] == SellableOf(bs[1..], prices);
      } else {
        assert s == SellableOf(bs[1..], prices);
      }
      var d := DustOf(bs, prices);
      if IsDust(bs[0], prices) {
        assert d[0] == hs[0] && d[1..] == DustOf(bs[1..], prices);
      } else {
        assert d == DustOf(bs[1..], prices);
      }
    }
  }

  function CancelRequests(os: seq<OpenOrder>): (r: seq<Request>)
    ensures |r| == |os|
    decreases |os|
  {
    if os == [] then [] else [CancelRequest(os[0].symbol, os[0].orderId)] + CancelRequests(os[1..])
  }

  /** The history as the `k`-th cancel is sent: every earlier cancel request was appended. */
  function CancelHistory(h: seq<Request>, os: seq<OpenOrder>, k: nat): seq<Request>
    requires k <= |os|
  {
    h + CancelRequests(os[..k])
  }

  predicate CancelFails(v: Venue, h: seq<Request>, os: seq<OpenOrder>, k: nat)
    requires k < |os|
  {
    v.cancelOrder(CancelHistory(h, os, k), os[k].symbol, os[k].orderId).Some?
  }

  lemma CancelHistoryShift(h: seq<Request>, os: seq<OpenOrder>, k: nat)
    requires k < |os|
    ensures CancelHistory(h + [CancelRequest(os[0].symbol, os[0].orderId)], os[1..], k) == CancelHistory(h, os, k + 1)
  {
    assert os[..k + 1][0] == os[0] && os[..k + 1][1..] == os[1..][..k];
  }

  /** How many cancels succeed before the first failing one (all of them when none fails). */
  function CancelsBeforeFailure(v: Venue, h: seq<Request>, os: seq<OpenOrder>): (n: nat)
    ensures n <= |os|
    decreases |os|
  {
    if os == [] then 0
    else if v.cancelOrder(h, os[0].symbol, os[0].orderId).Some? then 0
    else 1 + CancelsBeforeFailure(v, h + [CancelRequest(os[0].symbol, os[0].orderId)], os[1..])
  }

  /** The count stops exactly at the first cancel that fails. */
  lemma {:induction false} CancelsBeforeFailureIsFirst(v: Venue, h: seq<Request>, os: seq<OpenOrder>)
    ensures var n := CancelsBeforeFailure(v, h, os);
            (forall j :: 0 <= j < n ==> !CancelFails(v, h, os, j)) && (n < |os| ==> CancelFails(v, h, os, n))
    decreases |os|
  {
    if os != [] {
      assert CancelHistory(h, os, 0) == h by {
        assert os[..0] == [];
      }
      if v.cancelOrder(h, os[0].symbol, os[0].orderId).None? {
        var h1 := h + [CancelRequest(os[0].symbol, os[0].orderId)];
        CancelsBeforeFailureIsFirst(v, h1, os[1..]);
        var n' := CancelsBeforeFailure(v, h1, os[1..]);
        forall j | 0 <= j < n' + 1 ensures !CancelFails(v, h, os, j) {
          if j > 0 {
            CancelHistoryShift(h, os, j - 1);
            assert !CancelFails(v, h1, os[1..], j - 1);
          }
        }
        if n' < |os| - 1 {
          CancelHistoryShift(h, os, n');
          assert CancelFails(v, h1, os[1..], n');
        }
      }
    }
  }

  /** Cancelling sends the cancels up to and including the first failing one, then aborts with it. */
  lemma {:induction false} CancelAllStops(v: Venue, w: World, os: seq<OpenOrder>)
    ensures var n := CancelsBeforeFailure(v, w.requests, os);
            CancelAll(v, w, os) ==
              if n == |os| then Continue(World(CancelHistory(w.requests, os, n), w.log))
              else Abort(World(CancelHistory(w.requests, os, n + 1), w.log), Wrapped(CancelCall))
    decreases |os|
  {
    if os == [] {
      assert CancelHistory(w.requests, os, 0) == w.requests by {
        assert os[..0] == [] && w.requests + [] == w.requests;
      }
    } else {
      var w1 := Sent(w, CancelRequest(os[0].symbol, os[0].orderId));
      if v.cancelOrder(w.requests, os[0].symbol, os[0].orderId).Some? {
        assert CancelHistory(w.requests, os, 1) == w1.requests by {
          assert os[..1] == [os[0]];
        }
      } else {
        CancelAllStops(v, w1, os[1..]);
        var n' := CancelsBeforeFailure(v, w1.requests, os[1..]);
        if n' == |os| - 1 {
          CancelHistoryShift(w.requests, os, n');
        } else {
          CancelHistoryShift(w.requests, os, n' + 1);
        }
      }
    }
  }

  /**
   * Cancelling stops at the first failing cancel, whose request was still
   * sent, and the reset aborts with it; it continues exactly when no cancel
   * fails, having sent one cancel request per open order, in order.
   */
  lemma CancelAllOutcome(v: Venue, w: World, os: seq<OpenOrder>)
    ensures var r := CancelAll(v, w, os);
      && (r.Continue? <==> forall k :: 0 <= k < |os| ==> !CancelFails(v, w.requests, os, k))
      && (r.Continue? ==> r.world == World(w.requests + CancelRequests(os), w.log))
      && (r.Abort? ==> r.error == Wrapped(CancelCall)
                       && exists k :: 0 <= k < |os| && CancelFails(v, w.requests, os, k)
                                      && (forall j :: 0 <= j < k ==> !CancelFails(v, w.requests, os, j))
                                      && r.world == World(CancelHistory(w.requests, os, k + 1), w.log))
  {
    CancelAllStops(v, w, os);
    CancelsBeforeFailureIsFirst(v, w.requests, os);
    var n := CancelsBeforeFailure(v, w.requests, os);
    if n == |os| {
      assert os[..n] == os;
    }
  }

  /** The sell request for one holding, if the pass sends one: a MARKET SELL of its positive adjusted amount. */
  function SellRequestFor(info: Option<seq<SymbolInfo>>, h: Holding): seq<Request>
  {
    match info
    case None => []
    case Some(symbols) =>
      var q := AdjustQuantity(SymbolFilters(symbols, h.pair), h.free);
      if q > 0.0 then [NewOrder(OrderParams(h.pair, Sell, Market, Quantity(q), None))] else []
  }

  function SellRequests(info: Option<seq<SymbolInfo>>, hs: seq<Holding>): seq<Request>
    decreases |hs|
  {
    if hs == [] then [] else SellRequestFor(info, hs[0]) + SellRequests(info, hs[1..])
  }

  lemma SellOneRequests(v: Venue, w: World, h: Holding, time: string)
    ensures SellOne(v, w, h, time).requests == w.requests + SellRequestFor(v.exchangeInfo, h)
  {
    if v.exchangeInfo.Some? {
      PlaceAdjustedQuantity(v, h.pair, Sell, Market, h.free, None);
    } else {
      assert w.requests + [] == w.requests;
    }
  }

  /**
   * The sell pass sends one MARKET SELL per holding whose adjusted amount is
   * positive, in order, and nothing else. What it sends depends only on the
   * symbol filters: a failing order does not stop the holdings after it.
   */
  lemma {:induction false} SellPassRequests(v: Venue, w: World, hs: seq<Holding>, time: string)
    ensures SellPass(v, w, hs, time).requests == w.requests + SellRequests(v.exchangeInfo, hs)
    decreases |hs|
  {
    if hs == [] {
      assert w.requests + [] == w.requests;
    } else {
      var w1 := SellOne(v, w, hs[0], time);
      var first := SellRequestFor(v.exchangeInfo, hs[0]);
      var rest := SellRequests(v.exchangeInfo, hs[1..]);
      SellOneRequests(v, w, hs[0], time);
      SellPassRequests(v, w1, hs[1..], time);
      assert SellPass(v, w, hs, time) == SellPass(v, w1, hs[1..], time);
      assert SellRequests(v.exchangeInfo, hs) == first + rest;
      ConcatAssoc(w.requests, first, rest);
    }
  }

  /** A sell request the pass sends is a MARKET SELL of a positive quantity, with no LIMIT terms. */
  predicate IsPositiveSell(r: Request, pair: string)
  {
    r.NewOrder? && r.params.symbol == pair && r.params.side == Sell && r.params.orderType == Market
    && r.params.amount.Quantity? && r.params.amount.quantity > 0.0 && r.params.limit.None?
  }

  lemma SellRequestsArePositive(info: Option<seq<SymbolInfo>>, hs: seq<Holding>)
    ensures forall r :: r in SellRequests(info, hs) ==> exists h :: h in hs && IsPositiveSell(r, h.pair)
    decreases |hs|
  {
    if hs != [] {
      SellRequestsArePositive(info, hs[1..]);
      assert hs[0] in hs;
    }
  }

  /** The dust sweep's top-up: a MARKET BUY of 11 USDT worth of the pair. */
  function TopUp(pair: string): OrderParams
  {
    OrderParams(pair, Buy, Market, QuoteOrderQty(SWEEP_QUOTE), None)
  }

  /**
   * The requests sweeping one holding sends from history `h`: the top-up
   * always, then, when the top-up was accepted and the account could be
   * re-read, the sell of the adjusted refreshed free balance if positive.
   */
  function SweepRequests(v: Venue, h: seq<Request>, d: Holding): seq<Request>
  {
    var buy := NewOrder(TopUp(d.pair));
    [buy] + (if v.newOrder(h, TopUp(d.pair)).Some? then []
             else match AccountInfo(v, h + [buy])
                  case Err(_) => []
                  case Ok(account) => SellRequestFor(v.exchangeInfo, Holding(d.asset, FirstFree(account, d.asset), d.pair)))
  }

  lemma SweepOneRequests(v: Venue, w: World, d: Holding, time: string)
    ensures SweepOne(v, w, d, time).requests == w.requests + SweepRequests(v, w.requests, d)
  {
    var buy := PlaceOrderIn(v, w, d.pair, Buy, Market, None, Some(SWEEP_QUOTE), None);
    assert buy.world.requests == w.requests + [NewOrder(TopUp(d.pair))];
    if buy.outcome.Ok? {
      var w1 := Logged(buy.world, DustToppedUp(d.asset), Info, time);
      if AccountInfo(v, w1.requests).Ok? {
        var bal := FirstFree(AccountInfo(v, w1.requests).value, d.asset);
        if v.exchangeInfo.Some? {
          PlaceAdjustedQuantity(v, d.pair, Sell, Market, bal, None);
        }
      }
    }
  }

  /** `rs` is one sweep block per holding: its top-up, then possibly a positive sell of the same pair. */
  ghost predicate SweepBlocks(rs: seq<Request>, hs: seq<Holding>)
    decreases |hs|
  {
    if hs == [] then rs == []
    else |rs| >= 1 && rs[0] == NewOrder(TopUp(hs[0].pair))
         && (SweepBlocks(rs[1..], hs[1..])
             || (|rs| >= 2 && IsPositiveSell(rs[1], hs[0].pair) && SweepBlocks(rs[2..], hs[1..])))
  }

  /**
   * The USDT balance is read once, so the skip decision is the same for every
   * dust holding. Below 11 USDT every holding is skipped and the loop goes on:
   * nothing is sent and one warning per holding is logged.
   */
  lemma {:induction false} DustSkippedUniformly(v: Venue, w: World, hs: seq<Holding>, usdtBalance: real, time: string)
    requires usdtBalance < SWEEP_QUOTE
    ensures var r := DustSweep(v, w, hs, usdtBalance, time);
            && r.requests == w.requests
            && |r.log| == |w.log| + |hs| && r.log[|hs|..] == w.log
            && forall k :: 0 <= k < |hs| ==> r.log[k] == LogEntry(DustSkipped(hs[|hs| - 1 - k].asset, usdtBalance), Warning, time)
    decreases |hs|
  {
    if hs != [] {
      var w1 := Logged(w, DustSkipped(hs[0].asset, usdtBalance), Warning, time);
      DustSkippedUniformly(v, w1, hs[1..], usdtBalance, time);
      var r := DustSweep(v, w, hs, usdtBalance, time);
      assert r == DustSweep(v, w1, hs[1..], usdtBalance, time);
      assert r.log[|hs| - 1..] == w1.log;
      assert r.log[|hs|..] == w1.log[1..];
      forall k | 0 <= k < |hs|
        ensures r.log[k] == LogEntry(DustSkipped(hs[|hs| - 1 - k].asset, usdtBalance), Warning, time)
      {
        if k < |hs| - 1 {
          assert hs[1..][|hs[1..]| - 1 - k] == hs[|hs| - 1 - k];
        } else {
          assert r.log[k] == r.log[|hs| - 1..][0];
        }
      }
    }
  }

  lemma SweepRequestsShape(v: Venue, h: seq<Request>, d: Holding)
    ensures var rs := SweepRequests(v, h, d);
            rs[0] == NewOrder(TopUp(d.pair)) && (|rs| == 1 || (|rs| == 2 && IsPositiveSell(rs[1], d.pair)))
  {
  }

  /**
   * With at least 11 USDT no holding is skipped: each one gets its top-up,
   * followed by at most one positive sell of the same pair, in order.
   */
  lemma {:induction false} DustSweptInBlocks(v: Venue, w: World, hs: seq<Holding>, usdtBalance: real, time: string)
    requires usdtBalance >= SWEEP_QUOTE
    ensures var r := DustSweep(v, w, hs, usdtBalance, time);
            |r.requests| >= |w.requests| && r.requests[..|w.requests|] == w.requests
            && SweepBlocks(r.requests[|w.requests|..], hs)
    decreases |hs|
  {
    var r := DustSweep(v, w, hs, usdtBalance, time);
    if hs == [] {
      DropConcat(w.requests, []);
      assert w.requests + [] == w.requests;
    } else {
      var w1 := SweepOne(v, w, hs[0], time);
      SweepOneRequests(v, w, hs[0], time);
      var block := SweepRequests(v, w.requests, hs[0]);
      SweepRequestsShape(v, w.requests, hs[0]);
      DustSweptInBlocks(v, w1, hs[1..], usdtBalance, time);
      assert r == DustSweep(v, w1, hs[1..], usdtBalance, time);
      var rest := r.requests[|w1.requests|..];
      PrefixSplit(r.requests, w.requests, block);
      assert r.requests[|w.requests|..] == block + rest;
      if |block| == 1 {
        DropConcat(block, rest);
      } else {
        DropConcat(block, rest);
        assert (block + rest)[1] == block[1];
      }
    }
  }


  /**
   * The client errors that escape the reset: fetching the open orders, any
   * cancel, fetching prices or balances after the cancels, and reading the
   * account before a non-empty dust sweep (after the sell pass). Errors of
   * the sell pass and of the dust sweep are caught and do not count.
   */
  ghost predicate ResetAborts(v: Venue, h: seq<Request>)
  {
    match OpenOrders(v, h)
    case Err(_) => true
    case Ok(os) =>
      (exists k :: 0 <= k < |os| && CancelFails(v, h, os, k))
      || var h1 := h + CancelRequests(os);
         match AllPrices(v, h1)
         case Err(_) => true
         case Ok(prices) =>
           match GetBalances(v, h1, true)
           case Err(_) => true
           case Ok(bs) =>
             DustOf(bs, prices) != []
             && AccountInfo(v, h1 + SellRequests(v.exchangeInfo, SellableOf(bs, prices))).Err?
  }

  lemma SweepPhaseOutcome(v: Venue, w: World, dust: seq<Holding>, time: string)
    ensures SweepPhase(v, w, dust, time).Abort? <==> dust != [] && AccountInfo(v, w.requests).Err?
  {
  }

  lemma LiquidatePhaseOutcome(v: Venue, w: World, time: string)
    ensures LiquidatePhase(v, w, time).Abort? <==>
      match AllPrices(v, w.requests)
      case Err(_) => true
      case Ok(prices) =>
        match GetBalances(v, w.requests, true)
        case Err(_) => true
        case Ok(bs) =>
          DustOf(bs, prices) != []
          && AccountInfo(v, w.requests + SellRequests(v.exchangeInfo, SellableOf(bs, prices))).Err?
  {
    if AllPrices(v, w.requests).Ok? && GetBalances(v, w.requests, true).Ok? {
      var prices := AllPrices(v, w.requests).value;
      var bs := GetBalances(v, w.requests, true).value;
      var w2 := SellPass(v, w, SellableOf(bs, prices), time);
      SellPassRequests(v, w, SellableOf(bs, prices), time);
      SweepPhaseOutcome(v, w2, DustOf(bs, prices), time);
    }
  }

  /** The reset returns false exactly when a client error escapes it. */
  lemma ResetFailsIffErrorEscapes(v: Venue, w: World, time: string)
    ensures !Reset(v, w, time).ok <==> ResetAborts(v, w.requests)
  {
    var w0 := Logged(w, ResetStarting, Warning, time);
    if OpenOrders(v, w.requests).Ok? {
      var os := OpenOrders(v, w.requests).value;
      if os == [] {
        assert w.requests + CancelRequests(os) == w.requests;
        LiquidatePhaseOutcome(v, Logged(w0, NoOpenOrders, Info, time), time);
      } else {
        CancelAllOutcome(v, w0, os);
        var c := CancelAll(v, w0, os);
        if c.Continue? {
          LiquidatePhaseOutcome(v, Logged(c.world, OpenOrdersCancelled(|os|), Success, time), time);
        }
      }
    }
  }

  /**
   * A venue that answers every read and accepts every cancel lets the reset
   * succeed, however many orders it rejects and whatever its symbol filters.
   */
  lemma ResetSucceedsWhenReadsAnswer(v: Venue, w: World, time: string)
    requires forall h :: v.openOrders(h).Some? && v.tickerPrices(h).Some? && v.account(h).Some?
    requires forall h, symbol, orderId :: v.cancelOrder(h, symbol, orderId).None?
    ensures Reset(v, w, time).ok
  {
    ResetFailsIffErrorEscapes(v, w, time);
  }

  /** A balance list made of USDT alone puts nothing in either list. */
  lemma {:induction false} OnlyQuoteClassifiesNothing(bs: seq<Balance>, prices: map<string, real>)
    requires forall i :: 0 <= i < |bs| ==> bs[i].asset == QUOTE_ASSET
    ensures SellableOf(bs, prices) == [] && DustOf(bs, prices) == []
    decreases |bs|
  {
    if bs != [] {
      assert bs[0].asset == QUOTE_ASSET;
      forall i | 0 <= i < |bs[1..]| ensures bs[1..][i].asset == QUOTE_ASSET {
        assert bs[1..][i] == bs[i + 1];
      }
      OnlyQuoteClassifiesNothing(bs[1..], prices);
    }
  }

  /**
   * Resetting an account already liquidated (no open orders, only USDT) sends
   * nothing: no cancel, no sell, no top-up. It logs the start, "no open
   * orders" and completion, and returns true.
   */
  lemma ResetOnLiquidatedAccount(v: Venue, w: World, time: string)
    requires OpenOrders(v, w.requests) == Ok([])
    requires AllPrices(v, w.requests).Ok? && GetBalances(v, w.requests, true).Ok?
    requires forall i :: 0 <= i < |GetBalances(v, w.requests, true).value| ==>
               GetBalances(v, w.requests, true).value[i].asset == QUOTE_ASSET
    ensures Reset(v, w, time).ok
    ensures Reset(v, w, time).world.requests == w.requests
    ensures Reset(v, w, time).world.log ==
            [LogEntry(ResetComplete, Success, time), LogEntry(NoOpenOrders, Info, time),
             LogEntry(ResetStarting, Warning, time)] + w.log
  {
    var bs := GetBalances(v, w.requests, true).value;
    var prices := AllPrices(v, w.requests).value;
    OnlyQuoteClassifiesNothing(bs, prices);
    var w1 := Logged(Logged(w, ResetStarting, Warning, time), NoOpenOrders, Info, time);
    assert CancelPhase(v, Logged(w, ResetStarting, Warning, time), time) == Continue(w1);
    assert LiquidatePhase(v, w1, time) == Continue(w1);
  }

  // ---------- The handlers object ----------

  class GUIHandlers {
    const client: BinanceClient
    const session: SessionState

    constructor (client: BinanceClient, session: SessionState)
      ensures this.client == client && this.session == session
    {
      this.client := client;
      this.session := session;
    }

    function State(): World
      reads client, session
    {
      World(client.requests, session.activityLog)
    }

    method Place(symbol: string, side: Side, orderType: OrderType,
                 quantity: Option<real>, quoteOrderQty: Option<real>, price: Option<real>)
      returns (r: Result<()>)
      modifies client
      ensures Placed(State(), r) ==
              PlaceOrderIn(client.venue, old(State()), symbol, side, orderType, quantity, quoteOrderQty, price)
    {
      r := client.PlaceOrder(symbol, side, orderType, quantity, quoteOrderQty, price, DEFAULT_TIME_IN_FORCE);
    }

    method Fail(form: Form, e: ClientError, time: string) returns (ok: bool)
      modifies session
      ensures Outcome(State(), ok) == FormFailure(old(State()), form, e, time)
    {
      session.AddLog(FailureMessage(form, e), Error, time);
      ok := false;
    }

    method PlaceAndLog(form: Form, symbol: string, side: Side, orderType: OrderType,
                       quantity: Option<real>, quoteOrderQty: Option<real>, price: Option<real>,
                       placed: Message, time: string)
      returns (ok: bool)
      modifies client, session
      ensures Outcome(State(), ok) ==
              PlaceFromForm(client.venue, old(State()), form, symbol, side, orderType,
                            quantity, quoteOrderQty, price, placed, time)
    {
      var r := Place(symbol, side, orderType, quantity, quoteOrderQty, price);
      if r.Err? {
        ok := Fail(form, r.error, time);
      } else {
        session.AddLog(placed, Success, time);
        ok := true;
      }
    }

    /** `handle_buy_order`. */
    method HandleBuyOrder(symbol: string, orderType: OrderType, quantity: real, totalUsdt: real,
                          price: real, time: string)
      returns (ok: bool)
      modifies client, session
      ensures Outcome(State(), ok) ==
              BuyOrder(client.venue, old(State()), symbol, orderType, quantity, totalUsdt, price, time)
    {
      if quantity > 0.0 {
        var adjusted := AdjustQuantityFor(client.venue, symbol, quantity);
        if adjusted.Err? {
          ok := Fail(BuyForm, adjusted.error, time);
          return;
        }
        ok := PlaceAndLog(BuyForm, symbol, Buy, orderType, Some(adjusted.value), None,
                          if orderType == Limit then Some(price) else None,
                          BuyPlaced(symbol, Units(adjusted.value)), time);
      } else if totalUsdt > 0.0 {
        if orderType == Market {
          ok := PlaceAndLog(BuyForm, symbol, Buy, Market, None, Some(totalUsdt), None,
                            BuyPlaced(symbol, QuoteUsdt(totalUsdt)), time);
        } else {
          if price <= 0.0 {
            session.AddLog(BuyNeedsPrice, Error, time);
            return false;
          }
          var calcQty := totalUsdt / price;
          var adjusted := AdjustQuantityFor(client.venue, symbol, calcQty);
          if adjusted.Err? {
            ok := Fail(BuyForm, adjusted.error, time);
            return;
          }
          ok := PlaceAndLog(BuyForm, symbol, Buy, orderType, Some(adjusted.value), None, Some(price),
                            BuyPlaced(symbol, Units(adjusted.value)), time);
        }
      } else {
        session.AddLog(BuyNeedsAmount, Error, time);
        return false;
      }
    }

    /** `handle_sell_order`. */
    method HandleSellOrder(symbol: string, orderType: OrderType, quantity: real, price: real,
                           currentPrice: real, time: string)
      returns (ok: bool)
      modifies client, session
      ensures Outcome(State(), ok) ==
              SellOrder(client.venue, old(State()), symbol, orderType, quantity, price, currentPrice, time)
    {
      var estimatedValue: real;
      if orderType == Limit {
        estimatedValue := quantity * price;
      } else {
        estimatedValue := quantity * currentPrice;
      }
      if estimatedValue < MIN_ORDER_VALUE {
        session.AddLog(SellEstimateTooSmall(estimatedValue), Error, time);
        return false;
      }
      var adjusted := AdjustQuantityFor(client.venue, symbol, quantity);
      if adjusted.Err? {
        ok := Fail(SellForm(quantity), adjusted.error, time);
        return;
      }
      ok := PlaceAndLog(SellForm(quantity), symbol, Sell, orderType, Some(adjusted.value), None,
                        if orderType == Limit then Some(price) else None,
                        SellPlaced(symbol, adjusted.value), time);
    }

    /** `handle_cancel_order`. */
    method HandleCancelOrder(symbol: string, orderId: string, time: string) returns (ok: bool)
      modifies client, session
      ensures Outcome(State(), ok) == CancelOrderForm(client.venue, old(State()), symbol, orderId, time)
    {
      if orderId == "" || symbol == "" {
        session.AddLog(CancelNeedsIds, Error, time);
        return false;
      }
      var r := client.CancelOrder(symbol, orderId);
      if r.Err? {
        session.AddLog(CancelFailed(r.error), Error, time);
        return false;
      }
      session.AddLog(CancelDone(orderId), Success, time);
      return true;
    }

    /** Step 1 of the reset. */
    method CancelOpenOrders(time: string) returns (err: Option<ClientError>)
      modifies client, session
      ensures StepOf(State(), err) == CancelPhase(client.venue, old(State()), time)
    {
      var orders := OpenOrders(client.venue, client.requests);
      if orders.Err? {
        return Some(orders.error);
      }
      var os := orders.value;
      if os == [] {
        session.AddLog(NoOpenOrders, Info, time);
        return None;
      }
      ghost var w0 := State();
      for i := 0 to |os|
        invariant CancelAll(client.venue, State(), os[i..]) == CancelAll(client.venue, w0, os)
        invariant session.activityLog == w0.log
      {
        assert os[i..][1..] == os[i + 1..];
        var r := client.CancelOrder(os[i].symbol, os[i].orderId);
        if r.Err? {
          return Some(r.error);
        }
      }
      assert os[|os|..] == [];
      session.AddLog(OpenOrdersCancelled(|os|), Success, time);
      return None;
    }

    /** One iteration of the sell pass. */
    method SellAsset(h: Holding, time: string)
      modifies client, session
      ensures State() == SellOne(client.venue, old(State()), h, time)
    {
      var adjusted := AdjustQuantityFor(client.venue, h.pair, h.free);
      if adjusted.Err? {
        session.AddLog(AssetSellFailed(h.asset, adjusted.error), Error, time);
        return;
      }
      var qty := adjusted.value;
      if qty > 0.0 {
        var r := Place(h.pair, Sell, Market, Some(qty), None, None);
        if r.Err? {
          session.AddLog(AssetSellFailed(h.asset, r.error), Error, time);
        } else {
          session.AddLog(AssetSold(qty, h.asset), Success, time);
        }
      }
    }

    /** Pass 1 of the reset. */
    method SellAssets(hs: seq<Holding>, time: string)
      modifies client, session
      ensures State() == SellPass(client.venue, old(State()), hs, time)
    {
      ghost var w0 := State();
      for i := 0 to |hs|
        invariant SellPass(client.venue, State(), hs[i..], time) == SellPass(client.venue, w0, hs, time)
      {
        assert hs[i..][1..] == hs[i + 1..];
        SellAsset(hs[i], time);
      }
      assert hs[|hs|..] == [];
    }

    /** The try block of one dust iteration. */
    method SweepAsset(h: Holding, time: string)
      modifies client, session
      ensures State() == SweepOne(client.venue, old(State()), h, time)
    {
      var buy := Place(h.pair, Buy, Market, None, Some(SWEEP_QUOTE), None);
      if buy.Err? {
        session.AddLog(DustFailed(h.asset, buy.error), Error, time);
        return;
      }
      session.AddLog(DustToppedUp(h.asset), Info, time);
      var account := AccountInfo(client.venue, client.requests);
      if account.Err? {
        session.AddLog(DustFailed(h.asset, account.error), Error, time);
        return;
      }
      var newBalance := FindFree(account.value, h.asset);
      var adjusted := AdjustQuantityFor(client.venue, h.pair, newBalance);
      if adjusted.Err? {
        session.AddLog(DustFailed(h.asset, adjusted.error), Error, time);
        return;
      }
      var qty := adjusted.value;
      if qty > 0.0 {
        var sell := Place(h.pair, Sell, Market, Some(qty), None, None);
        if sell.Err? {
          session.AddLog(DustFailed(h.asset, sell.error), Error, time);
        } else {
          session.AddLog(DustSwept(qty, h.asset), Success, time);
        }
      } else {
        session.AddLog(DustZero(h.asset), Error, time);
      }
    }

    /** Pass 2 of the reset, once the USDT balance has been read. */
    method SweepDust(hs: seq<Holding>, usdtBalance: real, time: string)
      modifies client, session
      ensures State() == DustSweep(client.venue, old(State()), hs, usdtBalance, time)
    {
      ghost var w0 := State();
      for i := 0 to |hs|
        invariant DustSweep(client.venue, State(), hs[i..], usdtBalance, time)
                  == DustSweep(client.venue, w0, hs, usdtBalance, time)
      {
        assert hs[i..][1..] == hs[i + 1..];
        if usdtBalance < SWEEP_QUOTE {
          session.AddLog(DustSkipped(hs[i].asset, usdtBalance), Warning, time);
        } else {
          SweepAsset(hs[i], time);
        }
      }
      assert hs[|hs|..] == [];
    }

    /** Step 2 of the reset. */
    method Liquidate(time: string) returns (err: Option<ClientError>)
      modifies client, session
      ensures StepOf(State(), err) == LiquidatePhase(client.venue, old(State()), time)
    {
      var prices := AllPrices(client.venue, client.requests);
      if prices.Err? {
        return Some(prices.error);
      }
      var balances := GetBalances(client.venue, client.requests, true);
      if balances.Err? {
        return Some(balances.error);
      }
      var sellable, dust := ClassifyHoldings(balances.value, prices.value);
      SellAssets(sellable, time);
      if dust == [] {
        return None;
      }
      session.AddLog(DustFound(|dust|), Info, time);
      var account := AccountInfo(client.venue, client.requests);
      if account.Err? {
        return Some(account.error);
      }
      var usdtBalance := FindFree(account.value, QUOTE_ASSET);
      SweepDust(dust, usdtBalance, time);
      return None;
    }

    /** `handle_portfolio_reset`. */
    method HandlePortfolioReset(time: string) returns (ok: bool)
      modifies client, session
      ensures Outcome(State(), ok) == Reset(client.venue, old(State()), time)
    {
      session.AddLog(ResetStarting, Warning, time);
      var err := CancelOpenOrders(time);
      if err.None? {
        err := Liquidate(time);
      }
      if err.Some? {
        session.AddLog(ResetFailed(err.value), Error, time);
        return false;
      }
      session.AddLog(ResetComplete, Success, time);
      return true;
    }
  }
}
