/** The market of the monthly tick: one price step per instrument, quarterly
    dividends, the value of the holdings and the news-driven repricing. */
module Market {
  import opened Types
  import opened Numbers
  import opened Constants

  const MIN_PRICE: real := 0.01
  const MOON_FLOOR: real := 1.0
  /** The price the mean-reverting coin ZETA is pulled toward. */
  const ZETA_TARGET: real := 10.0

  /** Rounding to cents (the toFixed(2) of the price step), half up. */
  function RoundCents(x: real): (r: real)
    ensures -0.005 < r - x <= 0.005
  {
    ((x * 100.0 + 0.5).Floor as real) / 100.0
  }

  /** Rounding never reverses the order of two prices. */
  lemma RoundCentsMonotone(x: real, y: real)
    requires x <= y
    ensures RoundCents(x) <= RoundCents(y)
  {
    FloorMonotone(x * 100.0 + 0.5, y * 100.0 + 0.5);
  }

  /** A whole number of cents is kept as it is. */
  lemma RoundCentsExact(k: int)
    ensures RoundCents(k as real / 100.0) == k as real / 100.0
  {
    var x := k as real / 100.0;
    assert x * 100.0 == k as real;
    var y := k as real + 0.5;
    assert k as real <= y < k as real + 1.0;
    assert y.Floor == k;
  }

  /** The uniform draws one instrument uses in one price step, in the order they are
      drawn: an ordinary share uses a (volatility scale) and b (move); ZETA and the
      classic coins use a; MOON uses a (jump chance), then b and c (jump direction and
      size) on a jump or b (noise) otherwise. */
  datatype PriceDraws = PriceDraws(a: real, b: real, c: real)

  predicate UnitPriceDraws(d: PriceDraws)
  {
    IsUnit(d.a) && IsUnit(d.b) && IsUnit(d.c)
  }

  predicate IsZeta(s: Stock) { s.kind == Crypto && s.symbol == "ZETA" }
  predicate IsMoon(s: Stock) { s.kind == Crypto && s.symbol == "MOON" }

  /** ZETA: pulled 15% of the way back to the target, plus noise proportional to
      the price. */
  function ZetaPrice(price: real, volatility: real, u: real): real
  {
    var pullToCenter := (ZETA_TARGET - price) * 0.15;
    var noise := (u - 0.5) * volatility * price;
    price + pullToCenter + noise
  }

  /** The factor of a MOON jump: up by [1.2, 3.2) when the direction draw is above
      0.5, else down to [0.1, 0.6) of the price. */
  function JumpFactor(d: PriceDraws): (f: real)
    ensures IsUnit(d.c) && d.b > 0.5 ==> 1.2 <= f < 3.2
    ensures IsUnit(d.c) && d.b <= 0.5 ==> 0.1 <= f < 0.6
  {
    if d.b > 0.5 then d.c * 2.0 + 1.2 else d.c * 0.5 + 0.1
  }

  /** MOON: with a jump draw below 0.12 the price jumps by JumpFactor; otherwise
      ordinary noise; never below 1.0. */
  function MoonPrice(price: real, volatility: real, d: PriceDraws): real
  {
    var moved :=
      if d.a < 0.12 then price * JumpFactor(d)
      else price * (1.0 + (d.b - 0.5) * volatility);
    Max(MOON_FLOOR, moved)
  }

  /** The other coins: a trend-biased move scaled by the volatility. */
  function CoinPrice(price: real, volatility: real, trend: real, u: real): real
  {
    price * (1.0 + (u - 0.5 + trend) * volatility)
  }

  /** Ordinary shares: the volatility itself is scaled by a first draw in [0.5, 1.5). */
  function SharePrice(price: real, volatility: real, trend: real, u: real, v: real): real
  {
    var currentVolatility := volatility * (0.5 + u);
    price * (1.0 + (v - 0.5 + trend) * currentVolatility)
  }

  /** The unrounded next price of one instrument. */
  function RawPrice(s: Stock, d: PriceDraws): real
  {
    match s.kind
    case Crypto =>
      if s.symbol == "ZETA" then ZetaPrice(s.price, s.volatility, d.a)
      else if s.symbol == "MOON" then MoonPrice(s.price, s.volatility, d)
      else CoinPrice(s.price, s.volatility, s.trend, d.a)
    case Share => SharePrice(s.price, s.volatility, s.trend, d.a, d.b)
  }

  /** The committed next price: rounded to cents, at least one cent, and for MOON at
      least 1.0. */
  function NextPrice(s: Stock, d: PriceDraws): (p: real)
    ensures p >= MIN_PRICE
    ensures IsMoon(s) ==> p >= MOON_FLOOR
  {
    var raw := RawPrice(s, d);
    var p := Max(MIN_PRICE, RoundCents(raw));
    if IsMoon(s) then
      RoundCentsMonotone(MOON_FLOOR, raw);
      RoundCentsExact(100);
      p
    else p
  }

  /** Without noise (noise draw 0.5) ZETA closes 15% of its gap to the target. */
  lemma ZetaRevertsToTarget(price: real, volatility: real)
    ensures ZetaPrice(price, volatility, 0.5) - ZETA_TARGET == 0.85 * (price - ZETA_TARGET)
  {
  }

  /** One instrument after the price step: the new price replaces the old and is
      appended to the history; nothing else changes. */
  function StepStock(s: Stock, d: PriceDraws): Stock
  {
    var p := NextPrice(s, d);
    s.(price := p, history := s.history + [p])
  }

  /** The price step applied to every instrument, each with its own draws. */
  function StepAll(stocks: seq<Stock>, draws: seq<PriceDraws>): (r: seq<Stock>)
    requires |draws| == |stocks|
    ensures |r| == |stocks|
  {
    seq(|stocks|, i requires 0 <= i < |stocks| => StepStock(stocks[i], draws[i]))
  }

  /** Each new price is at least 0.01 (1.0 for MOON); each history grows by exactly
      the new price; symbol, type, holdings, cost basis and parameters are kept. */
  lemma StepAllShape(stocks: seq<Stock>, draws: seq<PriceDraws>, i: int)
    requires |draws| == |stocks| && 0 <= i < |stocks|
    ensures var t := StepAll(stocks, draws)[i];
      t.price >= MIN_PRICE && (IsMoon(stocks[i]) ==> t.price >= MOON_FLOOR) &&
      t.history == stocks[i].history + [t.price] &&
      t.(price := stocks[i].price, history := stocks[i].history) == stocks[i]
  {
  }

  /** Computes the price step over the instrument list, one instrument at a time. */
  method StepPrices(stocks: seq<Stock>, draws: seq<PriceDraws>) returns (next: seq<Stock>)
    requires |draws| == |stocks|
    ensures next == StepAll(stocks, draws)
  {
    next := [];
    var i := 0;
    while i < |stocks|
      invariant 0 <= i <= |stocks|
      invariant |next| == i
      invariant forall k :: 0 <= k < i ==> next[k] == StepStock(stocks[k], draws[k])
    {
      var s := stocks[i];
      var newPrice := NextPrice(s, draws[i]);
      next := next + [s.(price := newPrice, history := s.history + [newPrice])];
      i := i + 1;
    }
  }

  /** Dividends are paid when the calendar month number (gameMonth mod 12, plus one)
      is a multiple of three. */
  predicate IsDividendMonth(gameMonth: nat)
  {
    ((gameMonth % 12) + 1) % 3 == 0
  }

  /** The dividend months are the ones with gameMonth mod 12 in {2, 5, 8, 11}. */
  lemma DividendMonths(gameMonth: nat)
    ensures IsDividendMonth(gameMonth) <==> gameMonth % 12 in {2, 5, 8, 11}
  {
  }

  /** A quarter of the annual yield on the holding, for held instruments that pay. */
  function Payout(s: Stock): real
  {
    if s.owned > 0.0 && s.dividendYield > 0.0 then (s.price * s.dividendYield / 4.0) * s.owned else 0.0
  }

  function PayoutSum(stocks: seq<Stock>): real
  {
    if stocks == [] then 0.0 else PayoutSum(stocks[..|stocks| - 1]) + Payout(stocks[|stocks| - 1])
  }

  /** Dividends of a month: the payouts of all instruments in a dividend month, else 0. */
  function Dividends(stocks: seq<Stock>, gameMonth: nat): real
  {
    if IsDividendMonth(gameMonth) then PayoutSum(stocks) else 0.0
  }

  /** Adds up the payouts of the held instruments, in a dividend month. */
  method CollectDividends(stocks: seq<Stock>, gameMonth: nat) returns (totalDividends: real)
    ensures totalDividends == Dividends(stocks, gameMonth)
  {
    totalDividends := 0.0;
    var currentMonthNum := (gameMonth % 12) + 1;
    if currentMonthNum % 3 == 0 {
      var i := 0;
      while i < |stocks|
        invariant 0 <= i <= |stocks|
        invariant totalDividends == PayoutSum(stocks[..i])
      {
        assert stocks[..i + 1][..i] == stocks[..i];
        var s := stocks[i];
        if s.owned > 0.0 && s.dividendYield > 0.0 {
          var divPayout := (s.price * s.dividendYield / 4.0) * s.owned;
          totalDividends := totalDividends + divPayout;
        }
        i := i + 1;
      }
      assert stocks[..i] == stocks;
    }
  }

  predicate PricesNonNegative(stocks: seq<Stock>)
  {
    forall i :: 0 <= i < |stocks| ==> stocks[i].price >= 0.0
  }

  /** With non-negative prices dividends never take money away. */
  lemma {:induction false} DividendsNonNegative(stocks: seq<Stock>, gameMonth: nat)
    requires PricesNonNegative(stocks)
    ensures Dividends(stocks, gameMonth) >= 0.0
  {
    if IsDividendMonth(gameMonth) {
      PayoutSumNonNegative(stocks);
    }
  }

  lemma {:induction false} PayoutSumNonNegative(stocks: seq<Stock>)
    requires PricesNonNegative(stocks)
    ensures PayoutSum(stocks) >= 0.0
  {
    if stocks != [] {
      var s := stocks[|stocks| - 1];
      PayoutSumNonNegative(stocks[..|stocks| - 1]);
      if s.owned > 0.0 && s.dividendYield > 0.0 {
        ScaleAtLeast(s.price, 0.0, s.dividendYield, 0.0);
        ScaleAtLeast(s.price * s.dividendYield / 4.0, 0.0, s.owned, 0.0);
      }
    }
  }

  /** Value of the holdings at current prices: the sum of price * owned. */
  function StockValue(stocks: seq<Stock>): real
  {
    if stocks == [] then 0.0 else StockValue(stocks[..|stocks| - 1]) + stocks[|stocks| - 1].price * stocks[|stocks| - 1].owned
  }

  /** Net worth: cash plus deposit minus debt plus the holdings at current prices. */
  function NetWorth(cash: real, debt: real, deposit: real, stocks: seq<Stock>): real
  {
    cash + deposit - debt + StockValue(stocks)
  }

  /** Replacing one instrument changes the holdings' value by the difference of the
      two positions. */
  lemma {:induction false} StockValueUpdate(stocks: seq<Stock>, i: int, t: Stock)
    requires 0 <= i < |stocks|
    ensures StockValue(stocks[i := t]) == StockValue(stocks) - stocks[i].price * stocks[i].owned + t.price * t.owned
  {
    var n := |stocks| - 1;
    var updated := stocks[i := t];
    assert updated[..n] == if i == n then stocks[..n] else stocks[..n][i := t];
    if i < n {
      StockValueUpdate(stocks[..n], i, t);
    }
  }

  /** Trading one position for cash at a value difference of delta leaves net worth
      as it was. */
  lemma TradeKeepsNetWorth(cash: real, debt: real, deposit: real, stocks: seq<Stock>, i: int, t: Stock, delta: real)
    requires 0 <= i < |stocks| && t.price * t.owned == stocks[i].price * stocks[i].owned + delta
    ensures NetWorth(cash - delta, debt, deposit, stocks[i := t]) == NetWorth(cash, debt, deposit, stocks)
  {
    StockValueUpdate(stocks, i, t);
  }

  /** The factor of the news-driven repricing: ordinary shares go up by up to 15% on
      bull news and down by up to 10% on bear news; coins and neutral news keep 1. */
  function RepriceFactor(kind: StockKind, impact: MarketImpact, u: real): (f: real)
    ensures kind == Crypto || impact == Neutral ==> f == 1.0
    ensures IsUnit(u) && kind == Share && impact == Bull ==> 1.0 <= f < 1.15
    ensures IsUnit(u) && kind == Share && impact == Bear ==> 0.9 < f <= 1.0
  {
    if kind == Share then
      match impact
      case Bull => 1.0 + u * 0.15
      case Bear => 1.0 - u * 0.10
      case Neutral => 1.0
    else 1.0
  }

  /** One instrument after the news: the price is scaled, the history is untouched. */
  function RepriceStock(s: Stock, impact: MarketImpact, u: real): (t: Stock)
    ensures t.(price := s.price) == s
    ensures IsUnit(u) && s.price > 0.0 ==> t.price > 0.0
  {
    var f := RepriceFactor(s.kind, impact, u);
    var t := s.(price := s.price * f);
    if IsUnit(u) && s.price > 0.0 then (ProductPositive(s.price, f); t) else t
  }

  function RepriceAll(stocks: seq<Stock>, impact: MarketImpact, factors: seq<real>): (r: seq<Stock>)
    requires |factors| == |stocks|
    ensures |r| == |stocks|
  {
    seq(|stocks|, i requires 0 <= i < |stocks| => RepriceStock(stocks[i], impact, factors[i]))
  }

  /** News moves only shares; a crypto asset comes out of the repricing unchanged. */
  lemma RepriceStockShape(s: Stock, impact: MarketImpact, u: real)
    ensures s.kind == Share ==> RepriceStock(s, impact, u) == s.(price := s.price * RepriceFactor(Share, impact, u))
    ensures s.kind != Share ==> RepriceStock(s, impact, u) == s
  {
    if s.kind != Share {
      assert s.price * 1.0 == s.price;
    }
  }

  /** Applies the news-driven repricing to every instrument of an array, in place. */
  method RepriceInPlace(a: array<Stock>, impact: MarketImpact, factors: seq<real>)
    requires |factors| == a.Length
    modifies a
    ensures a[..] == RepriceAll(old(a[..]), impact, factors)
  {
    ghost var before := a[..];
    var i := 0;
    while i < a.Length
      invariant 0 <= i <= a.Length
      invariant forall k :: 0 <= k < i ==> a[k] == RepriceStock(before[k], impact, factors[k])
      invariant forall k :: i <= k < a.Length ==> a[k] == before[k]
    {
      RepriceStockShape(a[i], impact, factors[i]);
      if a[i].kind == Share {
        a[i] := a[i].(price := a[i].price * RepriceFactor(Share, impact, factors[i]));
      }
      i := i + 1;
    }
    assert a[..] == RepriceAll(before, impact, factors);
  }

  /** Neutral news leaves every price where it was. */
  lemma NeutralNewsKeepsPrices(stocks: seq<Stock>, factors: seq<real>)
    requires |factors| == |stocks|
    ensures RepriceAll(stocks, Neutral, factors) == stocks
  {
    var r := RepriceAll(stocks, Neutral, factors);
    forall i | 0 <= i < |stocks|
      ensures r[i] == stocks[i]
    {
      assert r[i].price == stocks[i].price * 1.0;
    }
  }

  /** ZETA opens at the very price the tick pulls it toward. */
  lemma ZetaStartsAtTarget()
    ensures FindStock(INITIAL_STOCKS, "ZETA").Some?
    ensures INITIAL_STOCKS[FindStock(INITIAL_STOCKS, "ZETA").value].price == ZETA_TARGET
  {
    assert INITIAL_STOCKS[4].symbol == "ZETA";
  }

  /** Index of the first instrument with the given symbol. */
  function FindStock(stocks: seq<Stock>, symbol: string): (r: Option<nat>)
    ensures r.Some? ==> r.value < |stocks| && stocks[r.value].symbol == symbol &&
                        forall k :: 0 <= k < r.value ==> stocks[k].symbol != symbol
    ensures r.None? ==> forall k :: 0 <= k < |stocks| ==> stocks[k].symbol != symbol
  {
    if stocks == [] then None
    else if stocks[0].symbol == symbol then Some(0)
    else match FindStock(stocks[1..], symbol)
      case None => None
      case Some(k) => Some(k + 1)
  }
}
