/** The broker gateway: order references, the maps kept per order, and the events made of broker callbacks. */
module Gateway {
  import opened Numeric
  import opened Text
  import opened Digits
  import opened Domain
  import opened OrderRef

  datatype Request = Request(order: OrderRequest, code: int, signalTimeMs: int)

  /** `OnRtnOrder`'s report of an order's status. */
  datatype OrderReport = OrderReport(
    orderRef: string, sysId: string, instrument: string, exchange: string, side: Side, offset: Offset,
    status: OrderStatus, volumeTraded: int, volumeTotalOriginal: int, limitPrice: real, timestamp: string)

  /** `OnRtnTrade`'s report of one trade. */
  datatype TradeReport = TradeReport(
    orderRef: string, tradeId: string, instrument: string, exchange: string, side: Side, offset: Offset,
    volume: int, price: real, timestamp: string)

  /** The answer to an insertion: a refusal, or the acknowledgement of a parked order. */
  datatype InsertAnswer = InsertAnswer(
    orderRef: string, parkedId: string, instrument: string, exchange: string, side: Side, offset: Offset,
    volume: int, limitPrice: real, refused: bool, timestamp: string)

  /** What the gateway remembers of each order, by reference, and the way back from the client's id. */
  datatype Records = Records(
    clientOf: map<string, string>, refOf: map<string, string>,
    exchangeOf: map<string, string>, instrumentOf: map<string, string>, signalTimeOf: map<string, int>,
    requestedOf: map<string, int>, cumulativeOf: map<string, int>, limitOf: map<string, real>)

  datatype State = State(
    accountId: string, ready: bool, sequence: nat,
    codeToId: map<int, string>, idToCode: map<string, int>, records: Records, pending: seq<OrderEvent>)

  function Lookup<V>(m: map<string, V>, key: string, otherwise: V): V {
    if key in m then m[key] else otherwise
  }

  function StrategyOf(codeToId: map<int, string>, ref: string): string {
    var code := ParseCode(ref);
    if code.Some? && code.value in codeToId then codeToId[code.value] else ""
  }

  function Forget(r: Records, ref: string, client: string): Records {
    Records(r.clientOf - {ref}, if client == "" then r.refOf else r.refOf - {client},
            r.exchangeOf - {ref}, r.instrumentOf - {ref}, r.signalTimeOf - {ref},
            r.requestedOf - {ref}, r.cumulativeOf - {ref}, r.limitOf - {ref})
  }

  function Remember(r: Records, ref: string, q: Request): Records {
    var client := q.order.clientOrderId;
    Records(if client == "" then r.clientOf else r.clientOf[ref := client],
            if client == "" then r.refOf else r.refOf[client := ref],
            r.exchangeOf[ref := q.order.exchange], r.instrumentOf[ref := q.order.instrument],
            if q.signalTimeMs > 0 then r.signalTimeOf[ref := q.signalTimeMs] else r.signalTimeOf,
            r.requestedOf[ref := q.order.volume], r.cumulativeOf[ref := 0],
            r.limitOf[ref := if q.order.priceType.Limit? then q.order.limitPrice else 0.0])
  }

  // ---- Registration and login ----

  predicate MayRegister(g: State, code: int, id: string) {
    && ValidCode(code) && id != ""
    && (code in g.codeToId ==> g.codeToId[code] == id)
    && (id in g.idToCode ==> g.idToCode[id] == code)
  }

  /** `register_strategy_order_ref_code`. */
  function Registered(g: State, code: int, id: string): State {
    if MayRegister(g, code, id)
    then g.(codeToId := g.codeToId[code := id], idToCode := g.idToCode[id := code])
    else g
  }

  /** The order-reference part of `OnRspUserLogin`. */
  function LoggedIn(g: State, failed: bool, maxOrderRef: string): State {
    if failed then g.(ready := false)
    else if maxOrderRef == "" then g
    else g.(sequence := Seed(maxOrderRef))
  }

  /** `OnRspSettlementInfoConfirm`, the last step of a connection. */
  function Confirmed(g: State, failed: bool): State {
    g.(ready := !failed)
  }

  /** The order-reference part of `OnFrontDisconnected`. */
  function Disconnected(g: State): State {
    g.(ready := false)
  }

  // ---- Submission ----

  /** `submit_order` up to the allocation of the order reference. */
  predicate MaySubmit(g: State, q: Request) {
    && g.ready && ValidCode(q.code) && q.code in g.codeToId
    && (q.order.strategyId != "" ==> g.codeToId[q.code] == q.order.strategyId)
  }

  /** The reference a submission uses up; it is refused when the sequence is exhausted. */
  function RefFor(g: State, q: Request): Option<string> {
    if MaySubmit(g, q) && g.sequence < SEQUENCE_MAX then Some(Format(g.sequence + 1, q.code)) else None
  }

  function SubmittedEvent(g: State, q: Request, ref: string, timestamp: string): OrderEvent {
    var o := q.order;
    OrderEvent(ref, "", if o.clientOrderId == "" then ref else o.clientOrderId, g.accountId, o.strategyId,
               o.instrument, o.exchange, o.side, o.offset, o.volume, 0, o.limitPrice, 0.0, q.signalTimeMs,
               Submitted, timestamp)
  }

  /** `submit_order` up to the broker call: the reference is allocated and the order put on record. */
  function Begun(g: State, q: Request): State {
    var ref := RefFor(g, q);
    if ref.None? then g
    else g.(sequence := g.sequence + 1, records := Remember(g.records, ref.value, q))
  }

  /** `submit_order` after a broker call that failed. */
  function Refused(g: State, q: Request, ref: string): State {
    g.(records := Forget(g.records, ref, q.order.clientOrderId))
  }

  /** `submit_order` after a broker call that succeeded; callbacks for the order may have come before. */
  function Announced(g: State, q: Request, ref: string, timestamp: string): State {
    g.(pending := g.pending + [SubmittedEvent(g, q, ref, timestamp)])
  }

  // ---- Callbacks ----

  function ClientOf(g: State, ref: string): string {
    Lookup(g.records.clientOf, ref, "")
  }

  function ClientShown(g: State, ref: string): string {
    if ClientOf(g, ref) == "" then ref else ClientOf(g, ref)
  }

  /** `should_defer_fill_determination_to_trade_report`. */
  predicate DefersToTrades(status: OrderStatus, filled: int) {
    filled > 0 && (status.Filled? || status.PartiallyFilled?)
  }

  predicate EndsOrder(status: OrderStatus) {
    status.Cancelled? || status.Rejected?
  }

  function LimitShown(g: State, ref: string, reported: real): real {
    if reported <= 0.0 then Lookup(g.records.limitOf, ref, reported) else reported
  }

  function OrderEventOf(g: State, o: OrderReport): OrderEvent {
    OrderEvent(o.orderRef, o.sysId, ClientShown(g, o.orderRef), g.accountId, StrategyOf(g.codeToId, o.orderRef),
               o.instrument, o.exchange, o.side, o.offset, o.volumeTotalOriginal, 0,
               LimitShown(g, o.orderRef, o.limitPrice), 0.0, Lookup(g.records.signalTimeOf, o.orderRef, 0),
               o.status, o.timestamp)
  }

  /** `OnRtnOrder`. */
  function AfterOrder(g: State, o: OrderReport): State {
    var r := g.records;
    var noted := r.(
      requestedOf := if o.volumeTotalOriginal > 0 then r.requestedOf[o.orderRef := o.volumeTotalOriginal]
                     else r.requestedOf,
      limitOf := if o.limitPrice > 0.0 then r.limitOf[o.orderRef := o.limitPrice] else r.limitOf);
    g.(records := if EndsOrder(o.status) then Forget(noted, o.orderRef, ClientOf(g, o.orderRef)) else noted,
       pending := if DefersToTrades(o.status, o.volumeTraded) then g.pending else g.pending + [OrderEventOf(g, o)])
  }

  function CumulativeAfter(g: State, t: TradeReport): int {
    Lookup(g.records.cumulativeOf, t.orderRef, 0) + Max(t.volume, 0)
  }

  function RequestedBy(g: State, t: TradeReport): int {
    var volume := Max(t.volume, 0);
    if t.orderRef in g.records.requestedOf then Max(g.records.requestedOf[t.orderRef], volume) else volume
  }

  predicate Completes(g: State, t: TradeReport) {
    RequestedBy(g, t) > 0 && CumulativeAfter(g, t) >= RequestedBy(g, t)
  }

  function TradeEventOf(g: State, t: TradeReport): OrderEvent {
    OrderEvent(t.orderRef, t.tradeId, ClientShown(g, t.orderRef), g.accountId, StrategyOf(g.codeToId, t.orderRef),
               t.instrument, t.exchange, t.side, t.offset, RequestedBy(g, t), CumulativeAfter(g, t),
               Lookup(g.records.limitOf, t.orderRef, 0.0), t.price, Lookup(g.records.signalTimeOf, t.orderRef, 0),
               if Completes(g, t) then Filled else PartiallyFilled, t.timestamp)
  }

  /** `OnRtnTrade`. */
  function AfterTrade(g: State, t: TradeReport): State {
    var counted := g.records.(cumulativeOf := g.records.cumulativeOf[t.orderRef := CumulativeAfter(g, t)]);
    g.(records := if Completes(g, t) then Forget(counted, t.orderRef, ClientOf(g, t.orderRef)) else counted,
       pending := g.pending + [TradeEventOf(g, t)])
  }

  function AnswerEventOf(g: State, a: InsertAnswer): OrderEvent {
    OrderEvent(a.orderRef, a.parkedId, ClientShown(g, a.orderRef), g.accountId, StrategyOf(g.codeToId, a.orderRef),
               a.instrument, a.exchange, a.side, a.offset, a.volume, 0, LimitShown(g, a.orderRef, a.limitPrice), 0.0,
               Lookup(g.records.signalTimeOf, a.orderRef, 0), if a.refused then Rejected else Accepted, a.timestamp)
  }

  /** `OnRspOrderInsert` with an error, and `OnRspParkedOrderInsert`. */
  function AfterAnswer(g: State, a: InsertAnswer): State {
    g.(records := if a.refused then Forget(g.records, a.orderRef, ClientOf(g, a.orderRef)) else g.records,
       pending := g.pending + [AnswerEventOf(g, a)])
  }

  /** What `cancel_order` asks the broker to cancel: reference, exchange and instrument. */
  function CancelTarget(g: State, client: string): Option<(string, string, string)> {
    if !g.ready || client == "" || client !in g.records.refOf then None
    else
      var ref := g.records.refOf[client];
      Some((ref, Lookup(g.records.exchangeOf, ref, ""), Lookup(g.records.instrumentOf, ref, "")))
  }

  class CtpTraderGateway {
    const accountId: string
    var ready: bool
    var sequence: nat
    var codeToId: map<int, string>
    var idToCode: map<string, int>
    var records: Records
    var pending: seq<OrderEvent>

    constructor (g: State)
      ensures Value() == g
    {
      accountId, ready, sequence, codeToId, idToCode := g.accountId, g.ready, g.sequence, g.codeToId, g.idToCode;
      records, pending := g.records, g.pending;
    }

    function Value(): State
      reads this
    {
      State(accountId, ready, sequence, codeToId, idToCode, records, pending)
    }

    method RegisterStrategyOrderRefCode(code: int, id: string) returns (ok: bool)
      modifies this`codeToId, this`idToCode
      ensures ok == MayRegister(old(Value()), code, id)
      ensures Value() == Registered(old(Value()), code, id)
    {
      if !ValidCode(code) || id == "" {
        return false;
      }
      if code in codeToId && codeToId[code] != id {
        return false;
      }
      if id in idToCode && idToCode[id] != code {
        return false;
      }
      codeToId := codeToId[code := id];
      idToCode := idToCode[codeToId[code] := code];
      ok := true;
    }

    /** The empty reference is a refusal: of an invalid code, or because the sequence is exhausted. */
    method NextOrderRef(code: int) returns (ref: string)
      modifies this`sequence
      ensures ref == "" <==> !ValidCode(code) || old(sequence) >= SEQUENCE_MAX
      ensures ref == "" ==> sequence == old(sequence)
      ensures ref != "" ==> sequence == old(sequence) + 1 && ref == Format(sequence, code)
    {
      if !ValidCode(code) || sequence >= SEQUENCE_MAX {
        return "";
      }
      sequence := sequence + 1;
      FormatReadsBack(sequence, code);
      ref := Format(sequence, code);
    }

    method OnRspUserLogin(failed: bool, maxOrderRef: string)
      modifies this`ready, this`sequence
      ensures Value() == LoggedIn(old(Value()), failed, maxOrderRef)
    {
      if failed {
        ready := false;
      } else if maxOrderRef != "" {
        sequence := Seed(maxOrderRef);
      }
    }

    method OnRspSettlementInfoConfirm(failed: bool)
      modifies this`ready
      ensures Value() == Confirmed(old(Value()), failed)
    {
      if failed {
        ready := false;
      } else {
        ready := true;
      }
    }

    method OnFrontDisconnected()
      modifies this`ready
      ensures Value() == Disconnected(old(Value()))
    {
      ready := false;
    }

    method EraseOrder(ref: string, client: string)
      modifies this`records
      ensures records == Forget(old(records), ref, client)
    {
      if client != "" {
        records := records.(refOf := records.refOf - {client});
      }
      records := records.(clientOf := records.clientOf - {ref});
      records := records.(exchangeOf := records.exchangeOf - {ref});
      records := records.(instrumentOf := records.instrumentOf - {ref});
      records := records.(signalTimeOf := records.signalTimeOf - {ref});
      records := records.(requestedOf := records.requestedOf - {ref});
      records := records.(cumulativeOf := records.cumulativeOf - {ref});
      records := records.(limitOf := records.limitOf - {ref});
    }

    method RecordOrder(q: Request, ref: string)
      modifies this`records
      ensures records == Remember(old(records), ref, q)
    {
      var o := q.order;
      if o.clientOrderId != "" {
        records := records.(clientOf := records.clientOf[ref := o.clientOrderId]);
        records := records.(refOf := records.refOf[o.clientOrderId := ref]);
      }
      records := records.(exchangeOf := records.exchangeOf[ref := o.exchange]);
      records := records.(instrumentOf := records.instrumentOf[ref := o.instrument]);
      if q.signalTimeMs > 0 {
        records := records.(signalTimeOf := records.signalTimeOf[ref := q.signalTimeMs]);
      }
      records := records.(requestedOf := records.requestedOf[ref := o.volume]);
      records := records.(cumulativeOf := records.cumulativeOf[ref := 0]);
      records := records.(limitOf := records.limitOf[ref := if o.priceType.Limit? then o.limitPrice else 0.0]);
    }

    /** The part of `submit_order` before the broker call; the empty reference is a refusal. */
    method BeginOrder(q: Request) returns (ref: string)
      modifies this`sequence, this`records
      ensures Value() == Begun(old(Value()), q)
      ensures ref == (if RefFor(old(Value()), q).Some? then RefFor(old(Value()), q).value else "")
    {
      hide Format, Remember;
      if !ready || !ValidCode(q.code) || q.code !in codeToId {
        return "";
      }
      if q.order.strategyId != "" && codeToId[q.code] != q.order.strategyId {
        return "";
      }
      ref := NextOrderRef(q.code);
      if ref != "" {
        RecordOrder(q, ref);
      }
    }

    /** The part after a broker call that failed. */
    method RefuseOrder(q: Request, ref: string)
      modifies this`records
      ensures Value() == Refused(old(Value()), q, ref)
    {
      EraseOrder(ref, q.order.clientOrderId);
    }

    /** The part after a broker call that succeeded. */
    method AnnounceOrder(q: Request, ref: string, timestamp: string)
      modifies this`pending
      ensures Value() == Announced(old(Value()), q, ref, timestamp)
    {
      pending := pending + [SubmittedEvent(Value(), q, ref, timestamp)];
    }

    method OnRtnOrder(o: OrderReport)
      modifies this
      ensures Value() == AfterOrder(old(Value()), o)
    {
      hide StrategyOf, Forget;
      var strategy, client := StrategyOf(codeToId, o.orderRef), Lookup(records.clientOf, o.orderRef, "");
      var signalTime, limit := Lookup(records.signalTimeOf, o.orderRef, 0), o.limitPrice;
      if o.volumeTotalOriginal > 0 {
        records := records.(requestedOf := records.requestedOf[o.orderRef := o.volumeTotalOriginal]);
      }
      if limit <= 0.0 && o.orderRef in records.limitOf {
        limit := records.limitOf[o.orderRef];
      }
      if o.limitPrice > 0.0 {
        records := records.(limitOf := records.limitOf[o.orderRef := o.limitPrice]);
      }
      if !DefersToTrades(o.status, o.volumeTraded) {
        pending := pending + [
          OrderEvent(o.orderRef, o.sysId, if client == "" then o.orderRef else client, accountId, strategy,
                     o.instrument, o.exchange, o.side, o.offset, o.volumeTotalOriginal, 0, limit, 0.0, signalTime,
                     o.status, o.timestamp)];
      }
      if EndsOrder(o.status) {
        EraseOrder(o.orderRef, client);
      }
    }

    method OnRtnTrade(t: TradeReport)
      modifies this
      ensures Value() == AfterTrade(old(Value()), t)
    {
      hide StrategyOf, Forget, Max, Lookup;
      var book := records;
      var client := Lookup(book.clientOf, t.orderRef, "");
      var requested := Max(t.volume, 0);
      if t.orderRef in book.requestedOf {
        requested := Max(book.requestedOf[t.orderRef], requested);
      }
      var cumulative := Lookup(book.cumulativeOf, t.orderRef, 0) + Max(t.volume, 0);
      var filled := requested > 0 && cumulative >= requested;
      var event := OrderEvent(
        t.orderRef, t.tradeId, if client == "" then t.orderRef else client, accountId,
        StrategyOf(codeToId, t.orderRef), t.instrument, t.exchange, t.side, t.offset, requested, cumulative,
        Lookup(book.limitOf, t.orderRef, 0.0), t.price, Lookup(book.signalTimeOf, t.orderRef, 0),
        if filled then Filled else PartiallyFilled, t.timestamp);
      records := book.(cumulativeOf := book.cumulativeOf[t.orderRef := cumulative]);
      pending := pending + [event];
      if filled {
        EraseOrder(t.orderRef, client);
      }
    }

    method OnInsertAnswer(a: InsertAnswer)
      modifies this
      ensures Value() == AfterAnswer(old(Value()), a)
    {
      pending := pending + [AnswerEventOf(Value(), a)];
      if a.refused {
        EraseOrder(a.orderRef, Lookup(records.clientOf, a.orderRef, ""));
      }
    }

    method DrainOrderEvents() returns (events: seq<OrderEvent>)
      modifies this`pending
      ensures events == old(pending) && pending == []
    {
      events := pending;
      pending := [];
    }
  }
}
