/** What the gateway tells of an order, callback by callback, against the history of its reports. */
module GatewayReports {
  import opened Numeric
  import opened Text
  import opened Domain
  import opened OrderRef
  import opened Gateway
  import opened GatewayRuns

  // ---- The history of an order ----

  /** An order on its way: its request and its reference. */
  datatype Sent = Sent(request: Request, ref: string)

  /** The limit last reported, or else the one it was submitted with; a market order has none. */
  function LimitKnown(o: Sent, steps: seq<Step>): real {
    if steps == [] then if o.request.order.priceType.Limit? then o.request.order.limitPrice else 0.0
    else
      var last := steps[|steps| - 1];
      if last.OrderReturn? && last.report.orderRef == o.ref && last.report.limitPrice > 0.0 then last.report.limitPrice
      else LimitKnown(o, steps[..|steps| - 1])
  }

  /** The volume last reported, or else the one it was submitted with. */
  function VolumeKnown(o: Sent, steps: seq<Step>): int {
    if steps == [] then o.request.order.volume
    else
      var last := steps[|steps| - 1];
      if last.OrderReturn? && last.report.orderRef == o.ref && last.report.volumeTotalOriginal > 0
      then last.report.volumeTotalOriginal
      else VolumeKnown(o, steps[..|steps| - 1])
  }

  function VolumeTraded(o: Sent, steps: seq<Step>): (n: int)
    ensures n >= 0
  {
    if steps == [] then 0
    else
      var last := steps[|steps| - 1];
      VolumeTraded(o, steps[..|steps| - 1])
      + if last.TradeReturn? && last.trade.orderRef == o.ref then Max(0, last.trade.volume) else 0
  }

  /** One more trade brings the order to its volume. */
  predicate Completed(o: Sent, steps: seq<Step>, lots: int) {
    VolumeTraded(o, steps) + Max(0, lots) >= VolumeKnown(o, steps) && (lots > 0 || VolumeKnown(o, steps) > 0)
  }

  /** The step ends the order: it is cancelled, refused or complete, or its broker call fails. */
  predicate Ends(o: Sent, steps: seq<Step>, step: Step) {
    match step
    case OrderReturn(report) => report.orderRef == o.ref && (report.status.Cancelled? || report.status.Rejected?)
    case TradeReturn(trade) => trade.orderRef == o.ref && Completed(o, steps, trade.volume)
    case InsertReturn(answer) => answer.orderRef == o.ref && answer.refused
    case Refuse(_, ref) => ref == o.ref
    case _ => false
  }

  /** A login does not make the reference available again. */
  predicate KeepsRef(o: Sent, step: Step) {
    step.LogIn? && !step.failed && step.maxOrderRef != "" ==> Seed(o.ref) <= Seed(step.maxOrderRef)
  }

  predicate Goes(o: Sent, steps: seq<Step>) {
    steps != [] ==>
      var front, last := steps[..|steps| - 1], steps[|steps| - 1];
      Goes(o, front) && !Ends(o, front, last) && KeepsRef(o, last)
  }

  // ---- What the gateway tells ----

  function ShownClient(o: Sent): string {
    if o.request.order.clientOrderId == "" then o.ref else o.request.order.clientOrderId
  }

  function ShownSignal(o: Sent): int {
    Max(0, o.request.signalTimeMs)
  }

  /** A status report is told with no volume filled, unless it says that something traded: that is left to the trades. */
  function StatusTold(o: Sent, accountId: string, strategyId: string, steps: seq<Step>, r: OrderReport): seq<OrderEvent> {
    if r.volumeTraded > 0 && (r.status.Filled? || r.status.PartiallyFilled?) then []
    else [OrderEvent(o.ref, r.sysId, ShownClient(o), accountId, strategyId, r.instrument, r.exchange, r.side, r.offset,
                     r.volumeTotalOriginal, 0, if r.limitPrice > 0.0 then r.limitPrice else LimitKnown(o, steps), 0.0,
                     ShownSignal(o), r.status, r.timestamp)]
  }

  /** A trade is told with all that has traded so far, at the trade's own price. */
  function TradeTold(o: Sent, accountId: string, strategyId: string, steps: seq<Step>, t: TradeReport): seq<OrderEvent> {
    [OrderEvent(o.ref, t.tradeId, ShownClient(o), accountId, strategyId, t.instrument, t.exchange, t.side, t.offset,
                Max(VolumeKnown(o, steps), Max(0, t.volume)), VolumeTraded(o, steps) + Max(0, t.volume),
                LimitKnown(o, steps), t.price, ShownSignal(o),
                if Completed(o, steps, t.volume) then Filled else PartiallyFilled, t.timestamp)]
  }

  function AnswerTold(o: Sent, accountId: string, strategyId: string, steps: seq<Step>, a: InsertAnswer): seq<OrderEvent> {
    [OrderEvent(o.ref, a.parkedId, ShownClient(o), accountId, strategyId, a.instrument, a.exchange, a.side, a.offset,
                a.volume, 0, if a.limitPrice > 0.0 then a.limitPrice else LimitKnown(o, steps), 0.0,
                ShownSignal(o), if a.refused then Rejected else Accepted, a.timestamp)]
  }

  /** A callback about the order. */
  predicate Concerns(o: Sent, callback: Step) {
    match callback
    case OrderReturn(r) => r.orderRef == o.ref
    case TradeReturn(t) => t.orderRef == o.ref
    case InsertReturn(a) => a.orderRef == o.ref
    case _ => false
  }

  function Told(o: Sent, accountId: string, strategyId: string, steps: seq<Step>, callback: Step): seq<OrderEvent> {
    match callback
    case OrderReturn(r) => StatusTold(o, accountId, strategyId, steps, r)
    case TradeReturn(t) => TradeTold(o, accountId, strategyId, steps, t)
    case InsertReturn(a) => AnswerTold(o, accountId, strategyId, steps, a)
    case _ => []
  }

  // ---- What is on record ----

  /** The gateway's maps hold the order's history. */
  predicate OnRecord(r: Records, o: Sent, steps: seq<Step>) {
    && Lookup(r.clientOf, o.ref, "") == o.request.order.clientOrderId
    && Lookup(r.signalTimeOf, o.ref, 0) == ShownSignal(o)
    && o.ref in r.exchangeOf && r.exchangeOf[o.ref] == o.request.order.exchange
    && o.ref in r.instrumentOf && r.instrumentOf[o.ref] == o.request.order.instrument
    && o.ref in r.limitOf && r.limitOf[o.ref] == LimitKnown(o, steps)
    && o.ref in r.requestedOf && r.requestedOf[o.ref] == VolumeKnown(o, steps)
    && o.ref in r.cumulativeOf && r.cumulativeOf[o.ref] == VolumeTraded(o, steps)
  }

  lemma OtherOrdersStay(r: Records, o: Sent, steps: seq<Step>, other: string, client: string)
    requires OnRecord(r, o, steps) && other != o.ref
    ensures OnRecord(Forget(r, other, client), o, steps)
  {
    hide LimitKnown, VolumeKnown, VolumeTraded;
  }

  lemma NewOrdersAreOthers(r: Records, o: Sent, steps: seq<Step>, ref: string, q: Request)
    requires OnRecord(r, o, steps) && ref != o.ref
    ensures OnRecord(Remember(r, ref, q), o, steps)
  {
    hide LimitKnown, VolumeKnown, VolumeTraded;
  }

  lemma HistoryOfOneMore(o: Sent, steps: seq<Step>, step: Step)
    ensures var longer := steps + [step];
      && (step.TradeReturn? && step.trade.orderRef == o.ref ==>
            VolumeTraded(o, longer) == VolumeTraded(o, steps) + Max(0, step.trade.volume))
      && (!step.TradeReturn? || step.trade.orderRef != o.ref ==> VolumeTraded(o, longer) == VolumeTraded(o, steps))
      && (if step.OrderReturn? && step.report.orderRef == o.ref then
            LimitKnown(o, longer) == (if step.report.limitPrice > 0.0 then step.report.limitPrice else LimitKnown(o, steps))
            && VolumeKnown(o, longer) == (if step.report.volumeTotalOriginal > 0 then step.report.volumeTotalOriginal
                                          else VolumeKnown(o, steps))
          else LimitKnown(o, longer) == LimitKnown(o, steps) && VolumeKnown(o, longer) == VolumeKnown(o, steps))
  {
    assert (steps + [step])[..|steps|] == steps;
  }

  lemma ReportKeepsRecord(g: State, o: Sent, steps: seq<Step>, report: OrderReport)
    requires OnRecord(g.records, o, steps) && !Ends(o, steps, OrderReturn(report))
    ensures OnRecord(AfterOrder(g, report).records, o, steps + [OrderReturn(report)])
  {
    hide LimitKnown, VolumeKnown, VolumeTraded, Forget, OrderEventOf;
    HistoryOfOneMore(o, steps, OrderReturn(report));
    var noted := AfterOrder(g, report.(status := Accepted)).records;
    if report.orderRef != o.ref {
      assert OnRecord(noted, o, steps);
      OtherOrdersStay(noted, o, steps, report.orderRef, ClientOf(g, report.orderRef));
    }
  }

  lemma CompletesWhenCompleted(g: State, o: Sent, steps: seq<Step>, t: TradeReport)
    requires OnRecord(g.records, o, steps) && t.orderRef == o.ref
    ensures Completes(g, t) <==> Completed(o, steps, t.volume)
  {
    hide LimitKnown, VolumeKnown, VolumeTraded;
  }

  lemma TradeKeepsRecord(g: State, o: Sent, steps: seq<Step>, t: TradeReport)
    requires OnRecord(g.records, o, steps) && !Ends(o, steps, TradeReturn(t))
    ensures OnRecord(AfterTrade(g, t).records, o, steps + [TradeReturn(t)])
  {
    hide LimitKnown, VolumeKnown, VolumeTraded, Forget, TradeEventOf, Completes, Completed;
    HistoryOfOneMore(o, steps, TradeReturn(t));
    if t.orderRef == o.ref {
      CompletesWhenCompleted(g, o, steps, t);
    } else {
      var counted := g.records.(cumulativeOf := g.records.cumulativeOf[t.orderRef := CumulativeAfter(g, t)]);
      assert OnRecord(counted, o, steps);
      OtherOrdersStay(counted, o, steps, t.orderRef, ClientOf(g, t.orderRef));
    }
  }

  lemma StepKeepsRecord(g: State, o: Sent, steps: seq<Step>, step: Step)
    requires OnRecord(g.records, o, steps) && Seed(o.ref) <= g.sequence
    requires !Ends(o, steps, step) && KeepsRef(o, step)
    ensures OnRecord(Apply(g, step).records, o, steps + [step]) && Seed(o.ref) <= Apply(g, step).sequence
  {
    hide LimitKnown, VolumeKnown, VolumeTraded, Forget, Remember, Format, Seed, AfterOrder, AfterTrade, OnRecord;
    match step {
      case OrderReturn(r) =>
        ReportKeepsRecord(g, o, steps, r);
        ReportsKeepSequence(g, step);
      case TradeReturn(t) =>
        TradeKeepsRecord(g, o, steps, t);
        ReportsKeepSequence(g, step);
      case _ =>
        OtherStepKeepsRecord(g, o, steps, step);
    }
  }

  lemma ReportsKeepSequence(g: State, step: Step)
    requires step.OrderReturn? || step.TradeReturn?
    ensures Apply(g, step).sequence == g.sequence
  {
    hide Forget, OrderEventOf, TradeEventOf;
  }

  lemma NewRefIsLater(g: State, q: Request)
    requires RefFor(g, q).Some?
    ensures Seed(RefFor(g, q).value) == g.sequence + 1
  {
    hide Format, Seed;
    FormatReadsBack(g.sequence + 1, q.code);
  }

  lemma RecordOfOneMore(r: Records, o: Sent, steps: seq<Step>, step: Step)
    requires OnRecord(r, o, steps) && !step.OrderReturn? && !step.TradeReturn?
    ensures OnRecord(r, o, steps + [step])
  {
    hide LimitKnown, VolumeKnown, VolumeTraded;
    HistoryOfOneMore(o, steps, step);
  }

  lemma OtherStepKeepsRecord(g: State, o: Sent, steps: seq<Step>, step: Step)
    requires OnRecord(g.records, o, steps) && Seed(o.ref) <= g.sequence
    requires !Ends(o, steps, step) && KeepsRef(o, step) && !step.OrderReturn? && !step.TradeReturn?
    ensures OnRecord(Apply(g, step).records, o, steps + [step]) && Seed(o.ref) <= Apply(g, step).sequence
  {
    hide LimitKnown, VolumeKnown, VolumeTraded, Forget, Remember, RefFor, Seed, SubmittedEvent, AnswerEventOf, OnRecord;
    match step {
      case Begin(q) =>
        if RefFor(g, q).Some? {
          NewRefIsLater(g, q);
          NewOrdersAreOthers(g.records, o, steps, RefFor(g, q).value, q);
        }
      case Refuse(q, ref) => OtherOrdersStay(g.records, o, steps, ref, q.order.clientOrderId);
      case InsertReturn(a) =>
        if a.orderRef != o.ref {
          OtherOrdersStay(g.records, o, steps, a.orderRef, ClientOf(g, a.orderRef));
        }
      case _ =>
    }
    RecordOfOneMore(Apply(g, step).records, o, steps, step);
  }

  lemma {:induction false} RunOfOneMore(g: State, steps: seq<Step>, step: Step)
    ensures Run(g, steps + [step]) == Apply(Run(g, steps), step)
    decreases |steps|
  {
    hide Apply;
    if steps != [] {
      RunOfOneMore(Apply(g, steps[0]), steps[1..], step);
      assert (steps + [step])[1..] == steps[1..] + [step];
    } else {
      assert [step][1..] == [];
    }
  }

  /** From its submission to its end, an order's history is on record, whatever happens to other orders. */
  lemma {:induction false} RunKeepsRecord(g: State, q: Request, steps: seq<Step>)
    requires NoneToCome(g.records, g.sequence) && RefFor(g, q).Some? && Goes(Sent(q, RefFor(g, q).value), steps)
    ensures var o, after := Sent(q, RefFor(g, q).value), Run(Begun(g, q), steps);
      OnRecord(after.records, o, steps) && Seed(o.ref) <= after.sequence
  {
    hide LimitKnown, VolumeKnown, VolumeTraded, Format, Seed, Apply, OnRecord, RefFor, Ends, KeepsRef;
    var o := Sent(q, RefFor(g, q).value);
    if steps == [] {
      BegunIsOnRecord(g, q);
    } else {
      var front, last := steps[..|steps| - 1], steps[|steps| - 1];
      RunKeepsRecord(g, q, front);
      StepKeepsRecord(Run(Begun(g, q), front), o, front, last);
      RunOfOneMore(Begun(g, q), front, last);
      assert front + [last] == steps;
    }
  }

  lemma BegunIsOnRecord(g: State, q: Request)
    requires NoneToCome(g.records, g.sequence) && RefFor(g, q).Some?
    ensures var o := Sent(q, RefFor(g, q).value);
      OnRecord(Begun(g, q).records, o, []) && Seed(o.ref) <= Begun(g, q).sequence
  {
    hide RefFor, Seed, OnRecord, Remember;
    NewRefIsLater(g, q);
    RememberedIsOnRecord(g.records, Sent(q, RefFor(g, q).value));
  }

  lemma RememberedIsOnRecord(r: Records, o: Sent)
    requires o.ref !in r.clientOf && o.ref !in r.signalTimeOf
    ensures OnRecord(Remember(r, o.ref, o.request), o, [])
  {
  }

  lemma RecordTells(g: State, o: Sent, steps: seq<Step>, callback: Step)
    requires OnRecord(g.records, o, steps) && Concerns(o, callback)
    ensures EventsOf(g, callback) == Told(o, g.accountId, StrategyOf(g.codeToId, o.ref), steps, callback)
  {
    hide LimitKnown, VolumeKnown, VolumeTraded, Forget, StrategyOf, Completes, Completed;
    if callback.TradeReturn? {
      CompletesWhenCompleted(g, o, steps, callback.trade);
    }
  }

  lemma RunKeepsAccount(g: State, steps: seq<Step>)
    ensures Run(g, steps).accountId == g.accountId
    decreases |steps|
  {
    hide Forget, Remember, SubmittedEvent, OrderEventOf, TradeEventOf, AnswerEventOf, RefFor, Seed;
  }

  /** From the submission of an order to its end, and whatever happens to other orders meanwhile, each callback about it is
      told as its history has it: under the client's id and the strategy that submitted it, with the limit and the volume
      last reported, and all that has traded. */
  lemma CallbacksTellTheHistory(g: State, q: Request, steps: seq<Step>, callback: Step)
    requires Bijective(g) && NoneToCome(g.records, g.sequence)
    requires RefFor(g, q).Some? && Goes(Sent(q, RefFor(g, q).value), steps)
    requires Concerns(Sent(q, RefFor(g, q).value), callback)
    ensures EventsOf(Run(Begun(g, q), steps), callback)
         == Told(Sent(q, RefFor(g, q).value), g.accountId, g.codeToId[q.code], steps, callback)
  {
    hide Format, Seed, ParseCode, OnRecord, Told, EventsOf, Remember, Goes, Run;
    var o, submitted := Sent(q, RefFor(g, q).value), Begun(g, q);
    RunKeepsRecord(g, q, steps);
    RunKeepsAccount(submitted, steps);
    RunKeepsRegistrations(submitted, steps);
    FormatReadsBack(g.sequence + 1, q.code);
    RecordTells(Run(submitted, steps), o, steps, callback);
  }

  /** Nothing is on record of an order. */
  predicate Forgotten(r: Records, o: Sent) {
    && o.ref !in r.clientOf && o.ref !in r.signalTimeOf && o.ref !in r.exchangeOf && o.ref !in r.instrumentOf
    && o.ref !in r.limitOf && o.ref !in r.requestedOf && o.ref !in r.cumulativeOf
    && (o.request.order.clientOrderId != "" ==> o.request.order.clientOrderId !in r.refOf)
  }

  /** The callback that ends an order erases what is on record of it, so that its client id is free again and a cancel by it
      reaches nothing. */
  lemma EndedOrdersAreForgotten(g: State, q: Request, steps: seq<Step>, callback: Step)
    requires NoneToCome(g.records, g.sequence) && RefFor(g, q).Some?
    requires Goes(Sent(q, RefFor(g, q).value), steps) && Ends(Sent(q, RefFor(g, q).value), steps, callback)
    requires callback.Callback()
    ensures Forgotten(Apply(Run(Begun(g, q), steps), callback).records, Sent(q, RefFor(g, q).value))
    ensures CancelTarget(Apply(Run(Begun(g, q), steps), callback), q.order.clientOrderId) == None
  {
    hide Format, Seed, Begun, Run, Goes, RefFor, LimitKnown, VolumeKnown, VolumeTraded;
    var o, before := Sent(q, RefFor(g, q).value), Run(Begun(g, q), steps);
    RunKeepsRecord(g, q, steps);
    EndingForgets(before, o, steps, callback);
  }

  lemma EndingForgets(g: State, o: Sent, steps: seq<Step>, callback: Step)
    requires OnRecord(g.records, o, steps) && Ends(o, steps, callback) && callback.Callback()
    ensures Forgotten(Apply(g, callback).records, o)
  {
    hide LimitKnown, VolumeKnown, VolumeTraded, Completes, Completed, OrderEventOf, TradeEventOf, AnswerEventOf;
    if callback.TradeReturn? {
      CompletesWhenCompleted(g, o, steps, callback.trade);
    }
  }

  /** Until it ends, an order with a client id can be cancelled by it, as long as the gateway is ready. */
  lemma LiveOrdersCanBeCancelled(g: State, q: Request, steps: seq<Step>)
    requires RecordsAgree(g) && OrderlyRun(g, [Begin(q)] + steps)
    requires RefFor(g, q).Some? && Goes(Sent(q, RefFor(g, q).value), steps)
    requires q.order.clientOrderId != "" && Run(Begun(g, q), steps).ready
    ensures CancelTarget(Run(Begun(g, q), steps), q.order.clientOrderId)
         == Some((RefFor(g, q).value, q.order.exchange, q.order.instrument))
  {
    hide Format, Seed, Begun, Run, Goes, RefFor, LimitKnown, VolumeKnown, VolumeTraded;
    assert ([Begin(q)] + steps)[1..] == steps;
    assert Apply(g, Begin(q)) == Begun(g, q);
    StepKeepsRecords(g, Begin(q));
    RunKeepsRecords(Begun(g, q), steps);
    RunKeepsRecord(g, q, steps);
  }
}
