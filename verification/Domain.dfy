/** The value types that every part of the runtime exchanges. */
module Domain {
  import opened Text

  datatype Option<+T> = None | Some(value: T)

  datatype Side = Buy | Sell

  datatype Offset = Open | Close | CloseYesterday | CloseToday

  datatype PriceType = Market | Limit

  datatype OrderStatus = Submitted | Accepted | PartiallyFilled | Filled | Cancelled | Rejected

  datatype MarketTick = MarketTick(
    timestamp: string, tradingDay: string, instrument: string, exchange: string, timestampMs: int,
    last: real, bid: real, ask: real, volume: int, turnover: real, bidSize: int, askSize: int,
    upperLimitPrice: real, lowerLimitPrice: real)

  datatype OrderRequest = OrderRequest(
    accountId: string, strategyId: string, clientOrderId: string,
    instrument: string, exchange: string, side: Side, offset: Offset, priceType: PriceType,
    limitPrice: real, volume: int, activateAtMs: int,
    forceFill: bool, forceFillPrice: real)

  datatype OrderEvent = OrderEvent(
    orderId: string, sourceOrderId: string, clientOrderId: string, accountId: string, strategyId: string,
    instrument: string, exchange: string, side: Side, offset: Offset,
    requestedVolume: int, filledVolume: int, limitPrice: real, filledPrice: real,
    signalTimeMs: int, status: OrderStatus, timestamp: string)

  /** `RuntimeOrderSnapshot` has the fields of an event. */
  type OrderSnapshot = OrderEvent

  predicate IsTerminal(status: OrderStatus) {
    status.Filled? || status.Cancelled? || status.Rejected?
  }

  /** `is_trade_fill_event`. */
  predicate IsTradeFill(event: OrderEvent) {
    event.filledVolume > 0 && (event.status.Filled? || event.status.PartiallyFilled?) && event.filledPrice > 0.0
  }

  /** On SHFE and INE a plain close means close-yesterday. */
  predicate ClosesYesterdayByDefault(exchange: string) {
    var normalized := Lower(Trim(exchange));
    normalized == "shfe" || normalized == "ine"
  }

  /** These are SHFE and INE in any letter case, with spaces around them or not, and no other exchange. */
  lemma YesterdayExchanges(exchange: string)
    ensures ClosesYesterdayByDefault(exchange) <==> Upper(Trim(exchange)) in {"SHFE", "INE"}
  {
    hide Upper, Lower, Trim;
    LettersOfTheTwo();
    SameLetters(Trim(exchange), "SHFE");
    SameLetters(Trim(exchange), "INE");
  }

  lemma LettersOfTheTwo()
    ensures Lower("SHFE") == "shfe" && Lower("INE") == "ine" && Upper("SHFE") == "SHFE" && Upper("INE") == "INE"
  {
  }
}
