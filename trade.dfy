/** The trade form: the typed amount is money, turned into units at the price of the
    instrument the form was opened on, and checked before the order reaches the
    engine. */
module TradeForm {
  import opened Types
  import opened Market
  import opened Numbers
  import opened Engine

  datatype TradeMode = BuyMode | SellMode

  /** What the form sends to the engine. */
  datatype Order = NoOrder | BuyOrder(symbol: string, quantity: real) | SellOrder(symbol: string, quantity: real)

  /** The money value of the units held of an instrument. */
  function OwnedValue(stock: Stock): real
  {
    stock.owned * stock.price
  }

  /** The form's check. `selected` is the instrument the form was opened on and
      `value` the typed amount, None when it does not parse as a number. Nothing is
      sent without an instrument or for an amount that is not positive; a purchase
      needs the amount in cash, a sale at most the holding's value plus 0.01. */
  function ValidateTrade(cash: real, selected: Option<Stock>, mode: TradeMode, value: Option<real>): (o: Order)
    requires selected.Some? ==> selected.value.price > 0.0
    ensures o != NoOrder ==>
      selected.Some? && value.Some? && value.value > 0.0 && o.symbol == selected.value.symbol &&
      o.quantity * selected.value.price == value.value
    ensures o.BuyOrder? <==>
      mode == BuyMode && selected.Some? && value.Some? && value.value > 0.0 && cash >= value.value
    ensures o.SellOrder? <==>
      mode == SellMode && selected.Some? && value.Some? && value.value > 0.0 &&
      value.value <= OwnedValue(selected.value) + 0.01
  {
    match selected
    case None => NoOrder
    case Some(stock) =>
      match value
      case None => NoOrder
      case Some(v) =>
        if v <= 0.0 then NoOrder
        else
          var quantity := v / stock.price;
          match mode
          case BuyMode => if cash >= v then BuyOrder(stock.symbol, quantity) else NoOrder
          case SellMode => if v <= OwnedValue(stock) + 0.01 then SellOrder(stock.symbol, quantity) else NoOrder
  }

  /** Submitting the form: the order, if any, is carried out by the engine. */
  function ExecuteTrade(s: PlayerState, selected: Option<Stock>, mode: TradeMode, value: Option<real>): PlayerState
    requires HoldingsValid(s.stocks)
    requires selected.Some? ==> selected.value.price > 0.0
  {
    match ValidateTrade(s.cash, selected, mode, value)
    case NoOrder => s
    case BuyOrder(symbol, quantity) => BuyStock(s, symbol, quantity)
    case SellOrder(symbol, quantity) => SellStock(s, symbol, quantity)
  }

  /** With unique symbols an instrument is found at its own position. */
  lemma UniqueSymbolsFind(stocks: seq<Stock>, i: nat)
    requires UniqueSymbols(stocks) && i < |stocks|
    ensures FindStock(stocks, stocks[i].symbol) == Some(i)
  {
  }

  /** A positive amount within the cash becomes a purchase order of amount / price
      units. */
  lemma FormBuyOrder(cash: real, stock: Stock, v: real)
    requires stock.price > 0.0 && 0.0 < v <= cash
    ensures ValidateTrade(cash, Some(stock), BuyMode, Some(v)) == BuyOrder(stock.symbol, v / stock.price)
  {
  }

  /** Buying amount / price units of an instrument costs exactly the amount. */
  lemma PurchaseAtQuote(s: PlayerState, i: nat, v: real)
    requires HoldingsValid(s.stocks) && UniqueSymbols(s.stocks)
    requires i < |s.stocks| && s.stocks[i].price > 0.0
    requires 0.0 < v <= s.cash
    ensures var r := BuyStock(s, s.stocks[i].symbol, v / s.stocks[i].price);
      r.cash == s.cash - v && r.stocks[i].owned == s.stocks[i].owned + v / s.stocks[i].price
  {
    var stock := s.stocks[i];
    var q := v / stock.price;
    UniqueSymbolsFind(s.stocks, i);
    DivideBack(v, stock.price);
    PurchaseRecord(s, stock.symbol, q, i, v);
    BuyIntoOne(s.stocks, stock.symbol, q, v, i);
  }

  /** Opened on the current quote, a purchase of at most the cash is one the form
      sends and the engine accepts: exactly the typed amount leaves cash and the
      holding grows by amount / price units. */
  lemma FormPurchaseIsCarriedOut(s: PlayerState, i: nat, v: real)
    requires HoldingsValid(s.stocks) && UniqueSymbols(s.stocks)
    requires i < |s.stocks| && s.stocks[i].price > 0.0
    requires 0.0 < v <= s.cash
    ensures ValidateTrade(s.cash, Some(s.stocks[i]), BuyMode, Some(v)).BuyOrder?
    ensures var r := ExecuteTrade(s, Some(s.stocks[i]), BuyMode, Some(v));
      r.cash == s.cash - v && r.stocks[i].owned == s.stocks[i].owned + v / s.stocks[i].price
  {
    FormBuyOrder(s.cash, s.stocks[i], v);
    PurchaseAtQuote(s, i, v);
  }

  /** A positive amount within the holding's value becomes a sale order of
      amount / price units. */
  lemma FormSellOrder(cash: real, stock: Stock, v: real)
    requires stock.price > 0.0 && 0.0 < v <= stock.owned * stock.price
    ensures ValidateTrade(cash, Some(stock), SellMode, Some(v)) == SellOrder(stock.symbol, v / stock.price)
  {
  }

  /** Selling amount / price units, at most the holding, credits exactly the amount. */
  lemma SaleAtQuote(s: PlayerState, i: nat, v: real)
    requires UniqueSymbols(s.stocks)
    requires i < |s.stocks| && s.stocks[i].price > 0.0
    requires 0.0 < v <= s.stocks[i].owned * s.stocks[i].price
    ensures SellStock(s, s.stocks[i].symbol, v / s.stocks[i].price).cash == s.cash + v
  {
    var stock := s.stocks[i];
    var q := v / stock.price;
    UniqueSymbolsFind(s.stocks, i);
    DivideBack(v, stock.price);
    QuotientAtMost(v, stock.price, stock.owned);
    SellStockAccepted(s, stock.symbol, q, i);
  }

  /** Opened on the current quote, a sale of at most the holding's value is one the
      engine accepts: exactly the typed amount is credited. */
  lemma FormSaleWithinHoldingIsCarriedOut(s: PlayerState, i: nat, v: real)
    requires HoldingsValid(s.stocks) && UniqueSymbols(s.stocks)
    requires i < |s.stocks| && s.stocks[i].price > 0.0
    requires 0.0 < v <= s.stocks[i].owned * s.stocks[i].price
    ensures ValidateTrade(s.cash, Some(s.stocks[i]), SellMode, Some(v)).SellOrder?
    ensures ExecuteTrade(s, Some(s.stocks[i]), SellMode, Some(v)).cash == s.cash + v
  {
    FormSellOrder(s.cash, s.stocks[i], v);
    SaleAtQuote(s, i, v);
  }

  /** The form allows 0.01 of money over the holding's value, the engine only
      0.0001 units over the holding: below a price of 100 the form can let through
      a sale the engine drops without a trace. Selling 1.24 of a holding of 0.12351
      units priced at 10 is such a sale. */
  lemma FormSaleCanBeDropped(s: PlayerState, i: nat)
    requires HoldingsValid(s.stocks) && UniqueSymbols(s.stocks)
    requires i < |s.stocks| && s.stocks[i].price == 10.0 && s.stocks[i].owned == 0.12351
    ensures ValidateTrade(s.cash, Some(s.stocks[i]), SellMode, Some(1.24)) == SellOrder(s.stocks[i].symbol, 0.124)
    ensures ExecuteTrade(s, Some(s.stocks[i]), SellMode, Some(1.24)) == s
  {
    UniqueSymbolsFind(s.stocks, i);
    SellStockRefused(s, s.stocks[i].symbol, 0.124);
  }
}
