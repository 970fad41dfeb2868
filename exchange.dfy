/**
 * The exchange client: balances, prices, symbol filters, LOT_SIZE quantity
 * adjustment, order parameters, portfolio valuation and error classification.
 *
 * The exchange itself (the Spot SDK behind the network) is a `Venue`: a value
 * whose every answer is a function of the requests sent to it so far, and
 * whose calls may fail. A `BinanceClient` holds a venue and the sequence of
 * requests it has sent; placing and cancelling orders append to it.
 */
module Exchange {
  import opened Common

  const QUOTE_ASSET: string := "USDT"
  const LOT_SIZE: string := "LOT_SIZE"
  const DEFAULT_TIME_IN_FORCE: string := "GTC"
  /** The venue's error code for a rejected filter (notional, lot size). */
  const FILTER_FAILURE_CODE: int := -1013

  datatype Balance = Balance(asset: string, free: real, locked: real)

  /** One trading filter of a symbol; the client reads only the `stepSize` of `LOT_SIZE`. */
  datatype Filter = Filter(filterType: string, stepSize: real)
  datatype SymbolInfo = SymbolInfo(symbol: string, filters: seq<Filter>)
  type Filters = map<string, Filter>

  datatype OpenOrder = OpenOrder(symbol: string, orderId: string)

  datatype Side = Buy | Sell
  datatype OrderType = Limit | Market

  /** At most one of `quantity` and `quoteOrderQty` is sent. */
  datatype Amount = NoAmount | Quantity(quantity: real) | QuoteOrderQty(quoteQty: real)
  /** `timeInForce` and `price`, sent together for LIMIT orders only. */
  datatype LimitTerms = LimitTerms(timeInForce: string, price: Option<real>)
  datatype OrderParams = OrderParams(symbol: string, side: Side, orderType: OrderType,
                                     amount: Amount, limit: Option<LimitTerms>)

  /** A request that changes the venue's state. */
  datatype Request = NewOrder(params: OrderParams) | CancelRequest(symbol: string, orderId: string)

  /** What the SDK's ClientError carries. */
  datatype SdkError = SdkError(errorCode: Option<int>, errorMessage: Option<string>)

  /** The SDK call an error came from. */
  datatype Operation = AccountCall | PricesCall | ExchangeInfoCall | OpenOrdersCall | CancelCall | NewOrderCall

  /** BinanceClientError: the failing call, with the venue's code and message when the client copied them. */
  datatype ClientError = ClientError(op: Operation, errorCode: Option<int>, errorMessage: Option<string>)

  datatype Result<T> = Ok(value: T) | Err(error: ClientError)

  /**
   * The venue behind the SDK. `None` (or an `SdkError`) is a raised ClientError.
   * Every answer, failures included, is a function of the requests sent so far, so
   * two reads with no request between them answer alike. `exchangeInfo` is one fixed
   * answer: the client caches a successful fetch, and a failed fetch is taken to fail
   * on every later call too.
   */
  datatype Venue = Venue(
    account: seq<Request> -> Option<seq<Balance>>,
    tickerPrices: seq<Request> -> Option<map<string, real>>,
    exchangeInfo: Option<seq<SymbolInfo>>,
    openOrders: seq<Request> -> Option<seq<OpenOrder>>,
    newOrder: (seq<Request>, OrderParams) -> Option<SdkError>,
    cancelOrder: (seq<Request>, string, string) -> Option<SdkError>)

  // ---------- Error classification ----------

  /** An error raised by a call other than new_order: the client keeps only its text. */
  function Wrapped(op: Operation): (e: ClientError)
    ensures e.op == op && e.errorCode.None? && e.errorMessage.None?
  {
    ClientError(op, None, None)
  }

  /** `BinanceClientError.from_client_error`, used for new_order failures. */
  function FromSdkError(e: SdkError): (r: ClientError)
    ensures r.op == NewOrderCall && r.errorCode == e.errorCode && r.errorMessage == e.errorMessage
  {
    ClientError(NewOrderCall, e.errorCode, e.errorMessage)
  }

  predicate IsNotionalError(e: ClientError)
  {
    e.errorCode == Some(FILTER_FAILURE_CODE) && e.errorMessage.Some? && e.errorMessage.value != ""
    && IsSubstring("NOTIONAL", e.errorMessage.value)
  }

  predicate IsLotSizeError(e: ClientError)
  {
    e.errorCode == Some(FILTER_FAILURE_CODE) && e.errorMessage.Some? && e.errorMessage.value != ""
    && IsSubstring("LOT_SIZE", e.errorMessage.value)
  }

  /** The notional test is code -1013 together with "NOTIONAL" occurring in the message. */
  lemma NotionalErrorIff(e: ClientError)
    ensures IsNotionalError(e) <==>
      e.errorCode == Some(-1013) && e.errorMessage.Some? && exists i :: OccursAt("NOTIONAL", e.errorMessage.value, i)
  {
    if e.errorMessage.Some? {
      IsSubstringIffOccurs("NOTIONAL", e.errorMessage.value);
    }
  }

  /** The lot-size test is code -1013 together with "LOT_SIZE" occurring in the message. */
  lemma LotSizeErrorIff(e: ClientError)
    ensures IsLotSizeError(e) <==>
      e.errorCode == Some(-1013) && e.errorMessage.Some? && exists i :: OccursAt("LOT_SIZE", e.errorMessage.value, i)
  {
    if e.errorMessage.Some? {
      IsSubstringIffOccurs("LOT_SIZE", e.errorMessage.value);
    }
  }

  /** Errors the client wraps itself carry no code, so they are never classified. */
  lemma WrappedErrorsAreUnclassified(op: Operation)
    ensures !IsNotionalError(Wrapped(op)) && !IsLotSizeError(Wrapped(op))
  {
  }

  /** The two tests are not exclusive: one message can name both filters. */
  lemma BothClassificationsCanHold()
    ensures var e := FromSdkError(SdkError(Some(-1013), Some("NOTIONAL LOT_SIZE")));
            IsNotionalError(e) && IsLotSizeError(e)
  {
    var m := "NOTIONAL LOT_SIZE";
    assert OccursAt("NOTIONAL", m, 0);
    assert OccursAt("LOT_SIZE", m, 9);
    IsSubstringIffOccurs("NOTIONAL", m);
    IsSubstringIffOccurs("LOT_SIZE", m);
  }

  // ---------- Balances ----------

  /** `get_balances(non_zero_only=True)`: the balances with something free or locked. */
  function NonZeroBalances(bs: seq<Balance>): (r: seq<Balance>)
    ensures forall b :: b in r <==> b in bs && (b.free > 0.0 || b.locked > 0.0)
    ensures IsSubsequence(r, bs)
    ensures |r| <= |bs|
  {
    if bs == [] then []
    else
      var rest := NonZeroBalances(bs[1..]);
      if bs[0].free > 0.0 || bs[0].locked > 0.0 then [bs[0]] + rest else rest
  }

  // ---------- Symbol filters ----------

  /** `{f['filterType']: f for f in filters}`: one entry per type, keyed by that type. */
  function FiltersByType(fs: seq<Filter>): (m: Filters)
    ensures forall t :: t in m ==> m[t].filterType == t && m[t] in fs
    ensures forall f :: f in fs ==> f.filterType in m
  {
    if fs == [] then map[]
    else
      var m := FiltersByType(fs[..|fs| - 1]);
      assert forall f :: f in fs ==> f in fs[..|fs| - 1] || f == fs[|fs| - 1];
      m[fs[|fs| - 1].filterType := fs[|fs| - 1]]
  }

  /** Later filters overwrite earlier ones: the entry of a type is its last filter. */
  lemma {:induction false} FiltersByTypeLastWins(fs: seq<Filter>, i: int)
    requires 0 <= i < |fs|
    requires forall j :: i < j < |fs| ==> fs[j].filterType != fs[i].filterType
    ensures FiltersByType(fs)[fs[i].filterType] == fs[i]
  {
    if i < |fs| - 1 {
      var init := fs[..|fs| - 1];
      assert init[i] == fs[i];
      forall j | i < j < |init| ensures init[j].filterType != init[i].filterType {
        assert init[j] == fs[j];
      }
      FiltersByTypeLastWins(init, i);
    }
  }

  /** `i` is the first index of `symbols` whose entry is for `symbol`. */
  predicate FirstEntryFor(symbols: seq<SymbolInfo>, symbol: string, i: int)
  {
    0 <= i < |symbols| && symbols[i].symbol == symbol
    && forall j :: 0 <= j < i ==> symbols[j].symbol != symbol
  }

  /** `get_symbol_filters` on a fetched exchange info: the filters of the first entry for `symbol`. */
  function SymbolFilters(symbols: seq<SymbolInfo>, symbol: string): (r: Option<Filters>)
    ensures r.None? <==> forall i :: 0 <= i < |symbols| ==> symbols[i].symbol != symbol
    ensures r.Some? ==> exists i :: FirstEntryFor(symbols, symbol, i)
                                    && r.value == FiltersByType(symbols[i].filters)
  {
    if symbols == [] then None
    else if symbols[0].symbol == symbol then
      assert FirstEntryFor(symbols, symbol, 0);
      Some(FiltersByType(symbols[0].filters))
    else
      var r := SymbolFilters(symbols[1..], symbol);
      assert forall i :: 1 <= i < |symbols| ==> symbols[i] == symbols[1..][i - 1];
      assert forall i {:trigger FirstEntryFor(symbols[1..], symbol, i)} ::
        FirstEntryFor(symbols[1..], symbol, i) ==> FirstEntryFor(symbols, symbol, i + 1);
      r
  }

  // ---------- Quantity adjustment ----------

  /** The LOT_SIZE step the client applies, if any: none without filters, without LOT_SIZE, or for a step <= 0. */
  function LotStep(filters: Option<Filters>): (r: Option<real>)
    ensures r.Some? ==> r.value > 0.0
  {
    if filters.None? || LOT_SIZE !in filters.value then None
    else if filters.value[LOT_SIZE].stepSize <= 0.0 then None
    else Some(filters.value[LOT_SIZE].stepSize)
  }

  predicate IsIntegral(x: real)
  {
    x.Floor as real == x
  }

  /** `x` is an exact integer multiple of the (positive) step `s`. */
  predicate IsMultipleOf(x: real, s: real)
    requires s > 0.0
  {
    IsIntegral(x / s)
  }

  // Small steps of real arithmetic, kept apart so that each proof stays linear.

  lemma StepBelow(q: real, s: real, x: real, k: real)
    requires s > 0.0 && q == x * s && 0.0 <= k <= x < k + 1.0
    ensures 0.0 <= k * s <= q && q - k * s < s
  {
    calc {
      k * s;
      <=
      x * s;
      ==
      q;
    }
    calc {
      q;
      ==
      x * s;
      <
      (k + 1.0) * s;
      ==
      k * s + s;
    }
  }

  lemma StepAbove(q: real, s: real, x: real, k: real)
    requires s > 0.0 && q == x * s && k - 1.0 < x <= k <= 0.0
    ensures q <= k * s <= 0.0 && k * s - q < s
  {
    calc {
      q;
      ==
      x * s;
      <=
      k * s;
    }
    calc {
      k * s - s;
      ==
      (k - 1.0) * s;
      <
      x * s;
      ==
      q;
    }
  }

  lemma DivMul(x: real, s: real)
    requires s != 0.0
    ensures x / s * s == x
  {
  }

  lemma MulDiv(k: real, s: real)
    requires s != 0.0
    ensures (k * s) / s == k
  {
  }

  lemma SignOfProduct(a: real, b: real)
    requires b >= 0.0
    ensures a >= 0.0 ==> a * b >= 0.0
    ensures a <= 0.0 ==> a * b <= 0.0
  {
  }

  lemma CancelPositive(x: real, y: real, b: real)
    requires b > 0.0 && x * b == y * b
    ensures x == y
  {
  }

  lemma CastMul(a: int, b: int)
    ensures (a * b) as real == a as real * b as real
  {
  }

  lemma MulAssoc(a: real, b: real, c: real)
    ensures (a * b) * c == a * (b * c)
  {
  }

  /** The bounds of `Trunc(q / s) * s` that the LOT_SIZE adjustment relies on. */
  lemma TruncStepBounds(q: real, s: real)
    requires s > 0.0
    ensures var k := Trunc(q / s); var r := k as real * s;
            && r / s == k as real
            && (0.0 <= q ==> 0.0 <= r <= q && q - r < s)
            && (q < 0.0 ==> q <= r <= 0.0 && r - q < s)
  {
    var x := q / s;
    var k := Trunc(x) as real;
    DivMul(q, s);
    MulDiv(k, s);
    if 0.0 <= q {
      StepBelow(q, s, x, k);
    } else {
      StepAbove(q, s, x, k);
    }
  }

  /**
   * `adjust_quantity` on fetched filters, as evidently intended: `Decimal(q) // Decimal(s) * s`
   * for the LOT_SIZE step `s`, returned without loss. Decimal's `//` truncates toward zero.
   * The code then renders this at the precision of the step's eight-place printing, which
   * AdjustQuantityAsWritten models; the two agree for steps that print exactly
   * (AsWrittenAgreesWhenStepPrints), and the rest of the model uses this one.
   */
  function AdjustQuantity(filters: Option<Filters>, quantity: real): (r: real)
    ensures LotStep(filters).None? ==> r == quantity
    ensures LotStep(filters).Some? ==>
      var s := LotStep(filters).value;
      && IsMultipleOf(r, s)
      && (0.0 <= quantity ==> 0.0 <= r <= quantity && quantity - r < s)
      && (quantity < 0.0 ==> quantity <= r <= 0.0 && r - quantity < s)
  {
    match LotStep(filters)
    case None => quantity
    case Some(s) =>
      TruncStepBounds(quantity, s);
      Trunc(quantity / s) as real * s
  }

  /**
   * Adjusting an adjusted quantity changes nothing. place_order adjusts the
   * quantity the handlers have already adjusted, so the order carries exactly
   * the quantity the handler computed.
   */
  lemma AdjustQuantityIdempotent(filters: Option<Filters>, quantity: real)
    ensures AdjustQuantity(filters, AdjustQuantity(filters, quantity)) == AdjustQuantity(filters, quantity)
  {
    if LotStep(filters).Some? {
      var s := LotStep(filters).value;
      var k := Trunc(quantity / s);
      TruncStepBounds(quantity, s);
      var r := k as real * s;
      assert AdjustQuantity(filters, quantity) == r;
      TruncOfInt(k);
      assert Trunc(r / s) == k;
    }
  }

  // ---------- The rendering the code performs ----------

  /** 10^n as a real: the scale of `n` decimal places. */
  function Scale(n: nat): (r: real)
    ensures r >= 1.0
  {
    if n == 0 then 1.0 else 10.0 * Scale(n - 1)
  }

  /** Decimal and float formatting round half to even. */
  function RoundHalfEven(x: real): (r: int)
    ensures IsIntegral(x) ==> r as real == x
    ensures Abs(x - r as real) <= 0.5
  {
    var f := x.Floor;
    var d := x - f as real;
    if d < 0.5 then f
    else if d > 0.5 then f + 1
    else if f % 2 == 0 then f
    else f + 1
  }

  /** The number of trailing decimal zeros of `n`, counting at most `cap` (all of them for 0). */
  function TrailingZeros(n: int, cap: nat): (t: nat)
    ensures t <= cap
    decreases cap
  {
    if cap == 0 || n % 10 != 0 then 0 else 1 + TrailingZeros(n / 10, cap - 1)
  }

  /** What is left of `n` once `TrailingZeros(n, cap)` zeros are removed. */
  function StripZeros(n: int, cap: nat): int
    decreases cap
  {
    if cap == 0 || n % 10 != 0 then n else StripZeros(n / 10, cap - 1)
  }

  lemma TenTimesTenth(n: int)
    requires n % 10 == 0
    ensures n as real == 10.0 * (n / 10) as real
  {
    assert n == 10 * (n / 10);
  }

  lemma ScaleStep(x: real, y: real, t: nat, m: real)
    requires x == 10.0 * y && y == Scale(t) * m
    ensures x == Scale(t + 1) * m
  {
    MulAssoc(10.0, Scale(t), m);
  }

  /** `n` is its stripped part followed by `TrailingZeros(n, cap)` zeros. */
  lemma {:induction false} TrailingZerosSplit(n: int, cap: nat)
    ensures n as real == Scale(TrailingZeros(n, cap)) * StripZeros(n, cap) as real
    decreases cap
  {
    if cap != 0 && n % 10 == 0 {
      TrailingZerosSplit(n / 10, cap - 1);
      TenTimesTenth(n);
      var t := TrailingZeros(n / 10, cap - 1);
      var m := StripZeros(n / 10, cap - 1);
      assert TrailingZeros(n, cap) == t + 1 && StripZeros(n, cap) == m;
      ScaleStep(n as real, (n / 10) as real, t, m as real);
    } else {
      assert TrailingZeros(n, cap) == 0 && StripZeros(n, cap) == n;
    }
  }

  /** Unless `cap` cut the count short, no trailing zero is left after stripping. */
  lemma {:induction false} TrailingZerosAllStripped(n: int, cap: nat)
    ensures TrailingZeros(n, cap) < cap ==> StripZeros(n, cap) % 10 != 0
    decreases cap
  {
    if cap != 0 && n % 10 == 0 {
      TrailingZerosAllStripped(n / 10, cap - 1);
    }
  }

  /**
   * The precision read off `f"{step:.<places>f}".rstrip('0')`: the number of the
   * printed fractional digits that remain once trailing zeros are stripped
   * (0 when none remain).
   */
  function PrintedPrecision(step: real, places: nat): (p: nat)
    ensures p <= places
  {
    places - TrailingZeros(RoundHalfEven(step * Scale(places)), places)
  }

  /** adjust_quantity formats the step with eight decimal places. */
  function StepPrecision(step: real): (p: nat)
    ensures p <= 8
  {
    PrintedPrecision(step, 8)
  }

  /** `float(f"{x:.{p}f}")` for a Decimal `x`: `x` scaled by `a = 10^p`, rounded, and scaled back. */
  function RenderAt(x: real, a: real): real
    requires a > 0.0
  {
    RoundHalfEven(x * a) as real / a
  }

  function RenderFixed(x: real, p: nat): real
  {
    RenderAt(x, Scale(p))
  }

  /** `r` lies on the grid of scale `a` (an integer number of units 1/a), at most half a unit from `x`. */
  predicate NearOnGrid(r: real, x: real, a: real)
  {
    IsIntegral(r * a) && Abs(r - x) * a <= 0.5
  }

  /** Rendering lands on the scale's grid, at most half a grid unit from `x`. */
  lemma RenderAtBounds(x: real, a: real)
    requires a > 0.0
    ensures NearOnGrid(RenderAt(x, a), x, a)
  {
    var n := RoundHalfEven(x * a);
    DivMul(n as real, a);
    assert RenderAt(x, a) * a == n as real;
    var d := RenderAt(x, a) - x;
    assert d * a == n as real - x * a;
    if d < 0.0 {
      assert Abs(d) * a == -(d * a);
    } else {
      assert Abs(d) * a == d * a;
    }
  }

  lemma ScaledMultiple(k: int, s: real, a: real, m: int)
    requires s * a == m as real
    ensures (k as real * s) * a == (k * m) as real
  {
    calc {
      (k as real * s) * a;
      == { MulAssoc(k as real, s, a); }
      k as real * (s * a);
      ==
      k as real * m as real;
      == { CastMul(k, m); }
      (k * m) as real;
    }
  }

  /** A multiple of a step that the scale `a` makes integral survives rendering unchanged. */
  lemma RenderAtExact(k: int, s: real, a: real, m: int)
    requires a > 0.0 && s * a == m as real
    ensures RenderAt(k as real * s, a) == k as real * s
  {
    var x := k as real * s;
    ScaledMultiple(k, s, a, m);
    var y := x * a;
    assert RoundHalfEven(y) == k * m;
    MulDiv(x, a);
    assert RenderAt(x, a) == y / a;
  }

  lemma RenderFixedExact(k: int, s: real, p: nat)
    requires IsIntegral(s * Scale(p))
    ensures RenderFixed(k as real * s, p) == k as real * s
  {
    RenderAtExact(k, s, Scale(p), (s * Scale(p)).Floor);
  }

  /**
   * `adjust_quantity` exactly as written: the adjusted multiple of the step,
   * rendered at the precision read off the step's eight-place printing.
   */
  function AdjustQuantityAsWritten(filters: Option<Filters>, quantity: real): (r: real)
    ensures LotStep(filters).None? ==> r == quantity
    ensures LotStep(filters).Some? ==>
      NearOnGrid(r, AdjustQuantity(filters, quantity), Scale(StepPrecision(LotStep(filters).value)))
  {
    match LotStep(filters)
    case None => quantity
    case Some(s) =>
      var a := AdjustQuantity(filters, quantity);
      var p := StepPrecision(s);
      RenderAtBounds(a, Scale(p));
      RenderFixed(a, p)
  }

  /**
   * The rendering keeps every multiple of a step that its printed precision
   * represents exactly; AdjustQuantity returns such a multiple, so for those
   * steps the code as written agrees with AdjustQuantity.
   */
  lemma RenderKeepsExactMultiples(r: real, s: real)
    requires s > 0.0 && IsMultipleOf(r, s) && IsIntegral(s * Scale(StepPrecision(s)))
    ensures RenderFixed(r, StepPrecision(s)) == r
  {
    RenderKeepsMultiplesAt(r, s, StepPrecision(s));
  }

  lemma RenderKeepsMultiplesAt(r: real, s: real, p: nat)
    requires s > 0.0 && IsMultipleOf(r, s) && IsIntegral(s * Scale(p))
    ensures RenderFixed(r, p) == r
  {
    var k := (r / s).Floor;
    DivMul(r, s);
    assert r == k as real * s;
    RenderFixedExact(k, s, p);
  }

  /** The LOT_SIZE step, if any, is represented exactly at its eight-place precision. */
  predicate StepPrintsExactly(filters: Option<Filters>)
  {
    LotStep(filters).Some? ==> var s := LotStep(filters).value; IsIntegral(s * Scale(StepPrecision(s)))
  }

  /** For steps that print exactly, `adjust_quantity` as written and AdjustQuantity agree. */
  lemma AsWrittenAgreesWhenStepPrints(filters: Option<Filters>, quantity: real)
    requires StepPrintsExactly(filters)
    ensures AdjustQuantityAsWritten(filters, quantity) == AdjustQuantity(filters, quantity)
  {
    if LotStep(filters).Some? {
      var s := LotStep(filters).value;
      var r := AdjustQuantity(filters, quantity);
      assert IsMultipleOf(r, s);
      assert IsIntegral(s * Scale(StepPrecision(s)));
      RenderKeepsExactMultiples(r, s);
      assert AdjustQuantityAsWritten(filters, quantity) == RenderFixed(r, StepPrecision(s));
    }
  }


  lemma PowersOfTenScaled()
    ensures Scale(8) == 100000000.0
    ensures RoundHalfEven(100000000.0) == 100000000 && RoundHalfEven(10000000.0) == 10000000
    ensures RoundHalfEven(1000000.0) == 1000000 && RoundHalfEven(100000.0) == 100000
    ensures RoundHalfEven(1000.0) == 1000 && RoundHalfEven(1.0) == 1
  {
  }

  lemma WholeStepPrints()
    ensures StepPrecision(1.0) == 0 && IsIntegral(1.0 * Scale(0))
  {
    PowersOfTenScaled();
    assert TrailingZeros(100000000, 8) == 8;
  }

  lemma TenthStepPrints()
    ensures StepPrecision(0.1) == 1 && IsIntegral(0.1 * Scale(1))
  {
    PowersOfTenScaled();
    assert TrailingZeros(10000000, 8) == 7;
  }

  lemma HundredthStepPrints()
    ensures StepPrecision(0.01) == 2 && IsIntegral(0.01 * Scale(2))
  {
    PowersOfTenScaled();
    assert TrailingZeros(1000000, 8) == 6;
  }

  lemma ThousandthStepPrints()
    ensures StepPrecision(0.001) == 3 && IsIntegral(0.001 * Scale(3))
  {
    PowersOfTenScaled();
    assert TrailingZeros(100000, 8) == 5;
  }

  lemma OtherPowersOfTenScaled()
    ensures Scale(8) == 100000000.0
    ensures RoundHalfEven(10000.0) == 10000 && RoundHalfEven(100.0) == 100 && RoundHalfEven(10.0) == 10
  {
  }

  lemma TenThousandthStepPrints()
    ensures StepPrecision(0.0001) == 4 && IsIntegral(0.0001 * Scale(4))
  {
    OtherPowersOfTenScaled();
    assert TrailingZeros(10000, 8) == 4;
  }

  lemma MillionthStepPrints()
    ensures StepPrecision(0.000001) == 6 && IsIntegral(0.000001 * Scale(6))
  {
    OtherPowersOfTenScaled();
    assert TrailingZeros(100, 8) == 2;
  }

  lemma TenMillionthStepPrints()
    ensures StepPrecision(0.0000001) == 7 && IsIntegral(0.0000001 * Scale(7))
  {
    OtherPowersOfTenScaled();
    assert TrailingZeros(10, 8) == 1;
  }

  lemma HundredThousandthStepPrints()
    ensures StepPrecision(0.00001) == 5 && IsIntegral(0.00001 * Scale(5))
  {
    PowersOfTenScaled();
    assert TrailingZeros(1000, 8) == 3;
  }

  lemma SatoshiStepPrints()
    ensures StepPrecision(0.00000001) == 8 && IsIntegral(0.00000001 * Scale(8))
  {
    PowersOfTenScaled();
    assert TrailingZeros(1, 8) == 0;
  }

  /** Every power-of-ten step from 1 to 1e-8 prints at its own number of decimals and is represented exactly there. */
  lemma UsualStepsPrintExactly()
    ensures StepPrecision(1.0) == 0 && IsIntegral(1.0 * Scale(0))
    ensures StepPrecision(0.1) == 1 && IsIntegral(0.1 * Scale(1))
    ensures StepPrecision(0.01) == 2 && IsIntegral(0.01 * Scale(2))
    ensures StepPrecision(0.001) == 3 && IsIntegral(0.001 * Scale(3))
    ensures StepPrecision(0.0001) == 4 && IsIntegral(0.0001 * Scale(4))
    ensures StepPrecision(0.00001) == 5 && IsIntegral(0.00001 * Scale(5))
    ensures StepPrecision(0.000001) == 6 && IsIntegral(0.000001 * Scale(6))
    ensures StepPrecision(0.0000001) == 7 && IsIntegral(0.0000001 * Scale(7))
    ensures StepPrecision(0.00000001) == 8 && IsIntegral(0.00000001 * Scale(8))
  {
    WholeStepPrints();
    TenthStepPrints();
    HundredthStepPrints();
    ThousandthStepPrints();
    TenThousandthStepPrints();
    HundredThousandthStepPrints();
    MillionthStepPrints();
    TenMillionthStepPrints();
    SatoshiStepPrints();
  }

  /** A step of 1e-9 prints as "0.00000000": precision 0, so 0.6 is rendered as 1.0. */
  lemma AsWrittenRoundsAboveQuantity()
    ensures var f := Some(map[LOT_SIZE := Filter(LOT_SIZE, 0.000000001)]);
            AdjustQuantityAsWritten(f, 0.6) == 1.0 && AdjustQuantity(f, 0.6) == 0.6
  {
    var s := 0.000000001;
    var f := Some(map[LOT_SIZE := Filter(LOT_SIZE, s)]);
    assert LotStep(f) == Some(s);
    assert 0.6 / s == 600000000.0;
    assert Trunc(0.6 / s) == 600000000;
    assert Scale(8) == 100000000.0;
    assert s * 100000000.0 == 0.1;
    assert RoundHalfEven(0.1) == 0;
    assert TrailingZeros(0, 8) == 8;
    assert StepPrecision(s) == 0;
    assert RoundHalfEven(0.6) == 1;
  }

  /**
   * A step of 1.5e-8 prints as "0.00000002": precision 8, so the adjusted 4.5e-8 is
   * rendered as 4e-8, and adjusting that again (as `place_order` does) gives 3e-8.
   */
  lemma AsWrittenReadjustDrifts()
    ensures var f := Some(map[LOT_SIZE := Filter(LOT_SIZE, 0.000000015)]);
            && AdjustQuantity(f, 0.000000045) == 0.000000045
            && AdjustQuantityAsWritten(f, 0.000000045) == 0.00000004
            && AdjustQuantityAsWritten(f, AdjustQuantityAsWritten(f, 0.000000045)) == 0.00000003
  {
    var f := Some(map[LOT_SIZE := Filter(LOT_SIZE, 0.000000015)]);
    assert LotStep(f) == Some(0.000000015);
    FineStepPrecision();
    FineStepTruncations();
    FineStepRenders();
    assert AdjustQuantityAsWritten(f, 0.000000045) == RenderFixed(AdjustQuantity(f, 0.000000045), 8);
    assert AdjustQuantityAsWritten(f, 0.00000004) == RenderFixed(AdjustQuantity(f, 0.00000004), 8);
  }

  /** 1.5e-8 prints as "0.00000002" (half to even), so its precision is 8. */
  lemma FineStepPrecision()
    ensures StepPrecision(0.000000015) == 8
  {
    assert Scale(8) == 100000000.0;
    assert 0.000000015 * 100000000.0 == 1.5;
    assert RoundHalfEven(1.5) == 2;
    assert TrailingZeros(2, 8) == 0;
  }

  lemma FineStepTruncations()
    ensures var f := Some(map[LOT_SIZE := Filter(LOT_SIZE, 0.000000015)]);
            AdjustQuantity(f, 0.000000045) == 0.000000045 && AdjustQuantity(f, 0.00000004) == 0.00000003
  {
    var s := 0.000000015;
    var f := Some(map[LOT_SIZE := Filter(LOT_SIZE, s)]);
    assert LotStep(f) == Some(s);
    assert 0.000000045 / s == 3.0;
    assert Trunc(3.0) == 3;
    assert 0.00000004 / s < 3.0 && 0.00000004 / s > 2.0;
    assert Trunc(0.00000004 / s) == 2;
  }

  lemma FineStepRenders()
    ensures RenderFixed(0.000000045, 8) == 0.00000004 && RenderFixed(0.00000003, 8) == 0.00000003
  {
    assert Scale(8) == 100000000.0;
    assert 0.000000045 * 100000000.0 == 4.5;
    assert RoundHalfEven(4.5) == 4;
    assert 0.00000003 * 100000000.0 == 3.0;
    assert RoundHalfEven(3.0) == 3;
  }

  // ---------- Client calls that only read ----------

  function AccountInfo(v: Venue, h: seq<Request>): Result<seq<Balance>>
  {
    match v.account(h)
    case None => Err(Wrapped(AccountCall))
    case Some(bs) => Ok(bs)
  }

  /** `get_balances`. */
  function GetBalances(v: Venue, h: seq<Request>, nonZeroOnly: bool): (r: Result<seq<Balance>>)
    ensures r.Err? <==> v.account(h).None?
    ensures r.Ok? ==> r.value == if nonZeroOnly then NonZeroBalances(v.account(h).value) else v.account(h).value
  {
    match AccountInfo(v, h)
    case Err(e) => Err(e)
    case Ok(bs) => Ok(if nonZeroOnly then NonZeroBalances(bs) else bs)
  }

  function AllPrices(v: Venue, h: seq<Request>): Result<map<string, real>>
  {
    match v.tickerPrices(h)
    case None => Err(Wrapped(PricesCall))
    case Some(m) => Ok(m)
  }

  function OpenOrders(v: Venue, h: seq<Request>): Result<seq<OpenOrder>>
  {
    match v.openOrders(h)
    case None => Err(Wrapped(OpenOrdersCall))
    case Some(os) => Ok(os)
  }

  /** `get_symbol_filters`: fails when the exchange info cannot be fetched. */
  function GetSymbolFilters(v: Venue, symbol: string): Result<Option<Filters>>
  {
    match v.exchangeInfo
    case None => Err(Wrapped(ExchangeInfoCall))
    case Some(info) => Ok(SymbolFilters(info, symbol))
  }

  /** `adjust_quantity(symbol, quantity)`. */
  function AdjustQuantityFor(v: Venue, symbol: string, quantity: real): (r: Result<real>)
    ensures r.Err? <==> v.exchangeInfo.None?
    ensures r.Ok? ==> r.value == AdjustQuantity(SymbolFilters(v.exchangeInfo.value, symbol), quantity)
  {
    match GetSymbolFilters(v, symbol)
    case Err(e) => Err(e)
    case Ok(f) => Ok(AdjustQuantity(f, quantity))
  }

  /**
   * Where the symbol's step prints exactly at eight places (the power-of-ten steps from 1 to 1e-8 do,
   * see UsualStepsPrintExactly), AdjustQuantityFor is `adjust_quantity` as written.
   */
  lemma AdjustQuantityForMatchesCode(v: Venue, symbol: string, quantity: real)
    requires v.exchangeInfo.Some? && StepPrintsExactly(SymbolFilters(v.exchangeInfo.value, symbol))
    ensures AdjustQuantityFor(v, symbol, quantity)
            == Ok(AdjustQuantityAsWritten(SymbolFilters(v.exchangeInfo.value, symbol), quantity))
  {
    var f := SymbolFilters(v.exchangeInfo.value, symbol);
    AsWrittenAgreesWhenStepPrints(f, quantity);
    assert AdjustQuantityFor(v, symbol, quantity) == Ok(AdjustQuantity(f, quantity));
  }

  lemma AdjustQuantityForIdempotent(v: Venue, symbol: string, quantity: real)
    requires AdjustQuantityFor(v, symbol, quantity).Ok?
    ensures AdjustQuantityFor(v, symbol, AdjustQuantityFor(v, symbol, quantity).value)
            == AdjustQuantityFor(v, symbol, quantity)
  {
    AdjustQuantityIdempotent(SymbolFilters(v.exchangeInfo.value, symbol), quantity);
  }

  // ---------- Order parameters ----------

  /**
   * The parameters `place_order` sends, or the error raised (while adjusting the
   * quantity) before anything is sent.
   */
  function PlaceOrderParams(v: Venue, symbol: string, side: Side, orderType: OrderType,
                            quantity: Option<real>, quoteOrderQty: Option<real>,
                            price: Option<real>, timeInForce: string): (r: Result<OrderParams>)
    ensures r.Err? <==> quantity.Some? && v.exchangeInfo.None?
    ensures r.Ok? ==>
      && r.value.symbol == symbol && r.value.side == side && r.value.orderType == orderType
      && (quantity.Some? ==> r.value.amount == Quantity(AdjustQuantityFor(v, symbol, quantity.value).value))
      && (quantity.None? && quoteOrderQty.Some? ==> r.value.amount == QuoteOrderQty(quoteOrderQty.value))
      && (quantity.None? && quoteOrderQty.None? ==> r.value.amount == NoAmount)
      && (r.value.limit.Some? <==> orderType == Limit)
      && (orderType == Limit ==> r.value.limit == Some(LimitTerms(timeInForce, price)))
  {
    var amount :=
      if quantity.Some? then
        match AdjustQuantityFor(v, symbol, quantity.value)
        case Err(e) => Err(e)
        case Ok(q) => Ok(Quantity(q))
      else if quoteOrderQty.Some? then Ok(QuoteOrderQty(quoteOrderQty.value))
      else Ok(NoAmount);
    match amount
    case Err(e) => Err(e)
    case Ok(a) =>
      Ok(OrderParams(symbol, side, orderType, a,
                     if orderType == Limit then Some(LimitTerms(timeInForce, price)) else None))
  }

  /** The outcome the venue gives a request it received. */
  function NewOrderOutcome(v: Venue, h: seq<Request>, p: OrderParams): Result<()>
  {
    match v.newOrder(h, p)
    case None => Ok(())
    case Some(e) => Err(FromSdkError(e))
  }

  // ---------- Portfolio value ----------

  datatype AssetRow = AssetRow(asset: string, free: real, locked: real, total: real, valueUsdt: real)

  function PriceOr0(prices: map<string, real>, pair: string): real
  {
    if pair in prices then prices[pair] else 0.0
  }

  /** One row of the asset table: USDT counts at face value, other assets at their USDT pair's price (0 if none). */
  function RowFor(b: Balance, prices: map<string, real>): (r: AssetRow)
    ensures r.asset == b.asset && r.free == b.free && r.locked == b.locked
    ensures r.total == b.free + b.locked
    ensures b.asset == QUOTE_ASSET ==> r.valueUsdt == r.total
    ensures b.asset != QUOTE_ASSET ==> r.valueUsdt == r.total * PriceOr0(prices, b.asset + QUOTE_ASSET)
  {
    var total := b.free + b.locked;
    AssetRow(b.asset, b.free, b.locked, total,
             if b.asset == QUOTE_ASSET then total else total * PriceOr0(prices, b.asset + QUOTE_ASSET))
  }

  function SumValues(rows: seq<AssetRow>): real
  {
    if rows == [] then 0.0 else SumValues(rows[..|rows| - 1]) + rows[|rows| - 1].valueUsdt
  }

  /** The total of the last USDT balance (0 if there is none): each USDT entry overwrites the previous one. */
  function LastUsdtTotal(bs: seq<Balance>): real
  {
    if bs == [] then 0.0
    else if bs[|bs| - 1].asset == QUOTE_ASSET then bs[|bs| - 1].free + bs[|bs| - 1].locked
    else LastUsdtTotal(bs[..|bs| - 1])
  }

  lemma SumValuesSnoc(rows: seq<AssetRow>, r: AssetRow)
    ensures SumValues(rows + [r]) == SumValues(rows) + r.valueUsdt
  {
    assert (rows + [r])[..|rows|] == rows;
  }

  lemma LastUsdtTotalSnoc(bs: seq<Balance>, i: nat)
    requires i < |bs|
    ensures LastUsdtTotal(bs[..i + 1]) ==
            if bs[i].asset == QUOTE_ASSET then bs[i].free + bs[i].locked else LastUsdtTotal(bs[..i])
  {
    assert bs[..i + 1][..i] == bs[..i];
  }

  /** `calculate_portfolio_value`. */
  method CalculatePortfolioValue(balances: seq<Balance>, prices: map<string, real>)
    returns (usdtBalance: real, portfolioValue: real, assetData: seq<AssetRow>)
    ensures |assetData| == |balances|
    ensures forall i :: 0 <= i < |balances| ==> assetData[i] == RowFor(balances[i], prices)
    ensures portfolioValue == SumValues(assetData)
    ensures usdtBalance == LastUsdtTotal(balances)
  {
    usdtBalance, portfolioValue, assetData := 0.0, 0.0, [];
    for i := 0 to |balances|
      invariant |assetData| == i
      invariant forall j :: 0 <= j < i ==> assetData[j] == RowFor(balances[j], prices)
      invariant portfolioValue == SumValues(assetData)
      invariant usdtBalance == LastUsdtTotal(balances[..i])
    {
      var b := balances[i];
      var total := b.free + b.locked;
      var value: real;
      if b.asset == QUOTE_ASSET {
        usdtBalance := total;
        value := total;
      } else {
        value := total * PriceOr0(prices, b.asset + QUOTE_ASSET);
      }
      var row := AssetRow(b.asset, b.free, b.locked, total, value);
      assert row == RowFor(b, prices);
      LastUsdtTotalSnoc(balances, i);
      SumValuesSnoc(assetData, row);
      portfolioValue := portfolioValue + value;
      assetData := assetData + [row];
    }
    assert balances[..|balances|] == balances;
  }

  /** Sum of the USDT totals and of the other assets' priced totals, as two separate folds. */
  function UsdtTotals(bs: seq<Balance>): real
  {
    if bs == [] then 0.0
    else (if bs[0].asset == QUOTE_ASSET then bs[0].free + bs[0].locked else 0.0) + UsdtTotals(bs[1..])
  }

  function MarketValue(bs: seq<Balance>, prices: map<string, real>): real
  {
    if bs == [] then 0.0
    else (if bs[0].asset == QUOTE_ASSET then 0.0
          else (bs[0].free + bs[0].locked) * PriceOr0(prices, bs[0].asset + QUOTE_ASSET))
         + MarketValue(bs[1..], prices)
  }

  function Rows(bs: seq<Balance>, prices: map<string, real>): (r: seq<AssetRow>)
    ensures |r| == |bs| && forall i :: 0 <= i < |bs| ==> r[i] == RowFor(bs[i], prices)
  {
    if bs == [] then [] else [RowFor(bs[0], prices)] + Rows(bs[1..], prices)
  }

  lemma {:induction false} SumValuesCons(r: AssetRow, rows: seq<AssetRow>)
    ensures SumValues([r] + rows) == r.valueUsdt + SumValues(rows)
    decreases |rows|
  {
    if rows != [] {
      var all := [r] + rows;
      assert all[..|all| - 1] == [r] + rows[..|rows| - 1];
      SumValuesCons(r, rows[..|rows| - 1]);
    } else {
      assert ([r] + rows)[..0] == [];
    }
  }

  /** The portfolio value is the USDT held plus the market value of everything else. */
  lemma {:induction false} PortfolioValueSplits(bs: seq<Balance>, prices: map<string, real>)
    ensures SumValues(Rows(bs, prices)) == UsdtTotals(bs) + MarketValue(bs, prices)
    decreases |bs|
  {
    if bs != [] {
      PortfolioValueSplits(bs[1..], prices);
      SumValuesCons(RowFor(bs[0], prices), Rows(bs[1..], prices));
    }
  }

  // ---------- The client object ----------

  class BinanceClient {
    /** The venue behind the SDK. */
    const venue: Venue
    /** Every order and cancel request sent so far, oldest first. */
    var requests: seq<Request>

    constructor (venue: Venue)
      ensures this.venue == venue && requests == []
    {
      this.venue := venue;
      requests := [];
    }

    /** `place_order`: builds the parameters step by step, then sends them. */
    method PlaceOrder(symbol: string, side: Side, orderType: OrderType,
                      quantity: Option<real>, quoteOrderQty: Option<real>,
                      price: Option<real>, timeInForce: string) returns (r: Result<()>)
      modifies this
      ensures var p := PlaceOrderParams(venue, symbol, side, orderType, quantity, quoteOrderQty, price, timeInForce);
              && (p.Err? ==> r == Err(p.error) && requests == old(requests))
              && (p.Ok? ==> requests == old(requests) + [NewOrder(p.value)]
                            && r == NewOrderOutcome(venue, old(requests), p.value))
    {
      var amount := NoAmount;
      if quantity.Some? {
        var adjusted := AdjustQuantityFor(venue, symbol, quantity.value);
        if adjusted.Err? {
          return Err(adjusted.error);
        }
        amount := Quantity(adjusted.value);
      } else if quoteOrderQty.Some? {
        amount := QuoteOrderQty(quoteOrderQty.value);
      }
      var limit: Option<LimitTerms> := None;
      if orderType == Limit {
        limit := Some(LimitTerms(timeInForce, price));
      }
      var params := OrderParams(symbol, side, orderType, amount, limit);
      r := NewOrderOutcome(venue, requests, params);
      requests := requests + [NewOrder(params)];
    }

    /** `cancel_order`: the request is sent; a venue failure is re-raised without its code. */
    method CancelOrder(symbol: string, orderId: string) returns (r: Result<()>)
      modifies this
      ensures requests == old(requests) + [CancelRequest(symbol, orderId)]
      ensures r == if venue.cancelOrder(old(requests), symbol, orderId).Some? then Err(Wrapped(CancelCall)) else Ok(())
    {
      var outcome := venue.cancelOrder(requests, symbol, orderId);
      requests := requests + [CancelRequest(symbol, orderId)];
      r := if outcome.Some? then Err(Wrapped(CancelCall)) else Ok(());
    }
  }
}
