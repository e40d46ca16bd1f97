/** One order from the broker's trade reports to the account and to the strategy's slot. */
module FillChain {
  import opened Numeric
  import opened Text
  import opened Domain
  import opened OrderRef
  import opened Gateway
  import opened GatewayRuns
  import opened LiveFills
  import opened OrderSlot

  /** The order followed: its reference, the client's id, the strategy, the account and the volume. */
  datatype Followed = Followed(ref: string, client: string, strategyId: string, accountId: string, volume: int)
  {
    function Key(): (k: string)
      ensures k != ""
    {
      "client:" + accountId + "|" + strategyId + "|" + client
    }
  }

  /** What an event says of a fill. */
  datatype FillNote = FillNote(client: string, strategyId: string, accountId: string, instrument: string, exchange: string,
                               side: Side, offset: Offset, cumulative: int, price: real, status: OrderStatus)

  function NoteOf(e: OrderEvent): FillNote {
    FillNote(e.clientOrderId, e.strategyId, e.accountId, e.instrument, e.exchange, e.side, e.offset, e.filledVolume,
             e.filledPrice, e.status)
  }

  /** An event about the order that reports a fill or declares it filled. */
  predicate Notable(e: OrderEvent, ref: string) {
    e.orderId == ref && (e.filledVolume > 0 || e.status.Filled?)
  }

  function Notes(events: seq<OrderEvent>, ref: string): seq<FillNote> {
    if events == [] then []
    else NoteIfAny(events[0], ref) + Notes(events[1..], ref)
  }

  function NoteIfAny(e: OrderEvent, ref: string): seq<FillNote> {
    if Notable(e, ref) then [NoteOf(e)] else []
  }

  /** The order's trade reports in a run. */
  function TradesOf(steps: seq<Step>, ref: string): seq<TradeReport> {
    if steps == [] then []
    else
      (if steps[0].TradeReturn? && steps[0].trade.orderRef == ref then [steps[0].trade] else [])
      + TradesOf(steps[1..], ref)
  }

  function Volumes(trades: seq<TradeReport>): seq<int> {
    seq(|trades|, i requires 0 <= i < |trades| => trades[i].volume)
  }

  /** What the fill event of a trade says once `done` lots have traded: the running total, filled at the order's volume. */
  function TradeNote(o: Followed, t: TradeReport, done: int): FillNote {
    FillNote(o.client, o.strategyId, o.accountId, t.instrument, t.exchange, t.side, t.offset, done + t.volume, t.price,
             if done + t.volume == o.volume then Filled else PartiallyFilled)
  }

  function Expected(o: Followed, trades: seq<TradeReport>, done: int): seq<FillNote> {
    if trades == [] then []
    else [TradeNote(o, trades[0], done)] + Expected(o, trades[1..], done + trades[0].volume)
  }

  /** What a step may do to the order when `done` lots have traded: trades have a volume and a price and stay within the
      order, status reports name its volume, an all-traded report carries its traded volume, and the order is neither
      cancelled nor refused before it is complete, and its broker call does not fail. */
  predicate Regular(o: Followed, step: Step, done: int) {
    match step
    case LogIn(failed, maxOrderRef) => failed || maxOrderRef == "" || Seed(o.ref) <= Seed(maxOrderRef)
    case OrderReturn(r) =>
      r.orderRef == o.ref ==>
        (EndsOrder(r.status) ==> done == o.volume)
        && (r.volumeTotalOriginal > 0 ==> r.volumeTotalOriginal == o.volume)
        && (r.status.Filled? ==> r.volumeTraded > 0)
    case TradeReturn(t) => t.orderRef == o.ref ==> t.volume > 0 && t.price > 0.0 && done + t.volume <= o.volume
    case InsertReturn(a) => a.orderRef == o.ref && a.refused ==> done == o.volume
    case Refuse(_, ref) => ref != o.ref
    case _ => true
  }

  function DoneAfter(o: Followed, step: Step, done: int): int {
    if step.TradeReturn? && step.trade.orderRef == o.ref then done + step.trade.volume else done
  }

  predicate RegularRun(o: Followed, steps: seq<Step>, done: int)
    decreases |steps|
  {
    steps != [] ==> Regular(o, steps[0], done) && RegularRun(o, steps[1..], DoneAfter(o, steps[0], done))
  }

  /** The gateway's records of the order while it works. */
  predicate Working(g: State, o: Followed, done: int) {
    && 0 <= done < o.volume && o.client != "" && o.strategyId != "" && g.accountId == o.accountId
    && Lookup(g.records.clientOf, o.ref, "") == o.client
    && o.ref in g.records.requestedOf && g.records.requestedOf[o.ref] == o.volume
    && Lookup(g.records.cumulativeOf, o.ref, -1) == done
    && StrategyOf(g.codeToId, o.ref) == o.strategyId && Seed(o.ref) <= g.sequence
  }

  // ---- The gateway ----

  lemma OtherOrdersDoNotTouch(r: Records, other: string, client: string, ref: string)
    requires other != ref
    ensures var after := Forget(r, other, client);
      && Lookup(after.clientOf, ref, "") == Lookup(r.clientOf, ref, "")
      && Lookup(after.cumulativeOf, ref, -1) == Lookup(r.cumulativeOf, ref, -1)
      && (ref in after.requestedOf <==> ref in r.requestedOf)
      && (ref in r.requestedOf ==> after.requestedOf[ref] == r.requestedOf[ref])
  {
  }

  lemma BeginKeepsWorking(g: State, o: Followed, q: Request, done: int)
    requires Working(g, o, done)
    ensures Working(Begun(g, q), o, done)
  {
    hide Format, Seed, StrategyOf;
    if RefFor(g, q).Some? {
      FormatReadsBack(g.sequence + 1, q.code);
      assert RefFor(g, q).value != o.ref;
    }
  }

  lemma RefusalKeepsWorking(g: State, o: Followed, q: Request, ref: string, done: int)
    requires Working(g, o, done) && ref != o.ref
    ensures Working(Refused(g, q, ref), o, done)
  {
    hide Seed, StrategyOf, Forget;
    OtherOrdersDoNotTouch(g.records, ref, q.order.clientOrderId, o.ref);
  }

  lemma OrderKeepsWorking(g: State, o: Followed, report: OrderReport, done: int)
    requires Working(g, o, done) && Regular(o, OrderReturn(report), done)
    ensures Working(AfterOrder(g, report), o, done)
  {
    hide StrategyOf, Seed, Forget, OrderEventOf;
    if report.orderRef != o.ref {
      OtherOrdersDoNotTouch(AfterOrder(g, report.(status := Accepted)).records, report.orderRef,
                            ClientOf(g, report.orderRef), o.ref);
    }
  }

  lemma TradeKeepsWorking(g: State, o: Followed, t: TradeReport, done: int)
    requires Working(g, o, done) && Regular(o, TradeReturn(t), done)
    ensures t.orderRef != o.ref ==> Working(AfterTrade(g, t), o, done)
    ensures t.orderRef == o.ref && done + t.volume < o.volume ==> Working(AfterTrade(g, t), o, done + t.volume)
  {
    hide StrategyOf, Seed, Forget;
    if t.orderRef != o.ref {
      OtherOrdersDoNotTouch(AfterTradeCounted(g, t), t.orderRef, ClientOf(g, t.orderRef), o.ref);
    }
  }

  function AfterTradeCounted(g: State, t: TradeReport): Records {
    g.records.(cumulativeOf := g.records.cumulativeOf[t.orderRef := CumulativeAfter(g, t)])
  }

  lemma AnswerKeepsWorking(g: State, o: Followed, a: InsertAnswer, done: int)
    requires Working(g, o, done) && Regular(o, InsertReturn(a), done)
    ensures Working(AfterAnswer(g, a), o, done)
  {
    hide StrategyOf, Seed, Forget, AnswerEventOf;
    if a.orderRef != o.ref {
      OtherOrdersDoNotTouch(g.records, a.orderRef, ClientOf(g, a.orderRef), o.ref);
    }
  }

  /** The notes a single step adds. */
  function StepNotes(o: Followed, step: Step, done: int): seq<FillNote> {
    if step.TradeReturn? && step.trade.orderRef == o.ref then [TradeNote(o, step.trade, done)] else []
  }

  lemma TradeIsNoted(g: State, o: Followed, t: TradeReport, done: int)
    requires Working(g, o, done) && Regular(o, TradeReturn(t), done)
    ensures Notes(EventsOf(g, TradeReturn(t)), o.ref) == StepNotes(o, TradeReturn(t), done)
  {
    hide StrategyOf, Seed, Forget, Completes;
    assert EventsOf(g, TradeReturn(t)) == [TradeEventOf(g, t)];
    if t.orderRef == o.ref {
      assert Completes(g, t) == (done + t.volume == o.volume) by {
        TradeCompletes(g, o, t, done);
      }
      assert Notes([TradeEventOf(g, t)], o.ref) == [NoteOf(TradeEventOf(g, t))];
    } else {
      assert !Notable(TradeEventOf(g, t), o.ref);
    }
  }

  lemma TradeCompletes(g: State, o: Followed, t: TradeReport, done: int)
    requires Working(g, o, done) && Regular(o, TradeReturn(t), done) && t.orderRef == o.ref
    ensures Completes(g, t) == (done + t.volume == o.volume)
  {
    hide StrategyOf, Seed;
  }

  /** Only trades make notes: other events carry no volume, and an all-traded report waits for its trades. */
  lemma OthersAreNotNoted(g: State, o: Followed, step: Step, done: int)
    requires Regular(o, step, done) && !step.TradeReturn?
    ensures Notes(EventsOf(g, step), o.ref) == []
  {
    hide Seed, Remember, Forget, LimitShown, ClientShown, StrategyOf, MaySubmit, MayRegister, Format;
    assert |EventsOf(g, step)| <= 1;
    assert forall e :: e in EventsOf(g, step) ==> !Notable(e, o.ref);
  }

  lemma StepWorks(g: State, o: Followed, step: Step, done: int)
    requires Working(g, o, done) && Regular(o, step, done)
    ensures Notes(EventsOf(g, step), o.ref) == StepNotes(o, step, done)
    ensures DoneAfter(o, step, done) < o.volume ==> Working(Apply(g, step), o, DoneAfter(o, step, done))
  {
    hide Seed, Begun, Refused, SubmittedEvent, AfterOrder, AfterTrade, AfterAnswer, Notes, Expected, EventsOf;
    if !step.TradeReturn? {
      OthersAreNotNoted(g, o, step, done);
    }
    match step {
      case Begin(q) => BeginKeepsWorking(g, o, q, done);
      case Refuse(q, ref) => RefusalKeepsWorking(g, o, q, ref, done);
      case OrderReturn(r) => OrderKeepsWorking(g, o, r, done);
      case TradeReturn(t) =>
        TradeIsNoted(g, o, t, done);
        TradeKeepsWorking(g, o, t, done);
      case InsertReturn(a) => AnswerKeepsWorking(g, o, a, done);
      case _ =>
    }
  }

  /** A completed order makes no more notes. */
  lemma StepAfterCompletion(g: State, o: Followed, step: Step)
    requires Regular(o, step, o.volume)
    ensures Notes(EventsOf(g, step), o.ref) == []
    ensures DoneAfter(o, step, o.volume) == o.volume
  {
    hide Seed, Forget, Completes, StrategyOf, Apply, Notes;
    if step.TradeReturn? {
      assert EventsOf(g, step) == [TradeEventOf(g, step.trade)] by {
        SingleTradeEvent(g, step.trade);
      }
      assert Notes([TradeEventOf(g, step.trade)], o.ref) == [] by {
        NotNoted(TradeEventOf(g, step.trade), o.ref);
      }
    } else {
      OthersAreNotNoted(g, o, step, o.volume);
    }
  }

  lemma SingleTradeEvent(g: State, t: TradeReport)
    ensures EventsOf(g, TradeReturn(t)) == [TradeEventOf(g, t)]
  {
    hide TradeEventOf, Forget;
  }

  lemma NotNoted(e: OrderEvent, ref: string)
    requires !Notable(e, ref)
    ensures Notes([e], ref) == []
  {
  }

  lemma NotesOfOneMore(e: OrderEvent, rest: seq<OrderEvent>, ref: string)
    ensures Notes([e] + rest, ref) == NoteIfAny(e, ref) + Notes(rest, ref)
  {
    hide NoteIfAny;
    assert ([e] + rest)[1..] == rest;
  }

  lemma {:induction false} NotesOfConcat(a: seq<OrderEvent>, b: seq<OrderEvent>, ref: string)
    ensures Notes(a + b, ref) == Notes(a, ref) + Notes(b, ref)
  {
    hide Notes, NoteIfAny;
    if a == [] {
      EmptyNotes(ref);
      assert [] + b == b && [] + Notes(b, ref) == Notes(b, ref);
    } else {
      var e, rest := a[0], a[1..];
      NotesOfConcat(rest, b, ref);
      NotesOfOneMore(e, rest + b, ref);
      NotesOfOneMore(e, rest, ref);
      Associates(NoteIfAny(e, ref), Notes(rest, ref), Notes(b, ref));
      assert [e] + rest == a && [e] + (rest + b) == a + b;
    }
  }

  lemma {:induction false} NothingAfterCompletion(g: State, o: Followed, steps: seq<Step>)
    requires RegularRun(o, steps, o.volume)
    ensures Notes(Log(g, steps), o.ref) == [] && TradesOf(steps, o.ref) == []
    decreases |steps|
  {
    hide Apply, EventsOf, Notes;
    if steps == [] {
      assert Notes([], o.ref) == [] by {
        EmptyNotes(o.ref);
      }
    } else {
      StepAfterCompletion(g, o, steps[0]);
      NothingAfterCompletion(Apply(g, steps[0]), o, steps[1..]);
      NotesOfConcat(EventsOf(g, steps[0]), Log(Apply(g, steps[0]), steps[1..]), o.ref);
    }
  }

  lemma EmptyNotes(ref: string)
    ensures Notes([], ref) == []
  {
  }

  /** Through any regular run, whatever happens to other orders, the gateway raises one fill event per trade of the order,
      carrying the running total, the client's id and the strategy; the one that completes the volume, and no other,
      is marked filled. */
  lemma {:induction false} TradesBecomeRunningTotals(g: State, o: Followed, steps: seq<Step>, done: int)
    requires Working(g, o, done) && RegularRun(o, steps, done)
    ensures Notes(Log(g, steps), o.ref) == Expected(o, TradesOf(steps, o.ref), done)
    decreases |steps|
  {
    hide Apply, EventsOf, Notes, Working, Regular;
    if steps == [] {
      EmptyNotes(o.ref);
    } else {
      var next, total := Apply(g, steps[0]), DoneAfter(o, steps[0], done);
      var rest := TradesOf(steps[1..], o.ref);
      StepWorks(g, o, steps[0], done);
      NotesOfConcat(EventsOf(g, steps[0]), Log(next, steps[1..]), o.ref);
      assert total <= o.volume by {
        WithinVolume(g, o, steps[0], done);
      }
      if total < o.volume {
        TradesBecomeRunningTotals(next, o, steps[1..], total);
      } else {
        NothingAfterCompletion(next, o, steps[1..]);
      }
      if steps[0].TradeReturn? && steps[0].trade.orderRef == o.ref {
        assert ([steps[0].trade] + rest)[1..] == rest;
      } else {
        assert [] + rest == rest;
      }
    }
  }

  lemma WithinVolume(g: State, o: Followed, step: Step, done: int)
    requires Working(g, o, done) && Regular(o, step, done)
    ensures DoneAfter(o, step, done) <= o.volume
  {
    hide Seed, StrategyOf, Lookup;
  }

  // ---- The runtime and the slot ----

  /** The volumes the account applies for one tracking key, report by report. */
  function AppliedVolumes(applied: Applied, events: seq<OrderEvent>, key: string): seq<int>
    decreases |events|
  {
    if events == [] then []
    else
      var d := Consume(applied, events[0]);
      (if FillOfKey(events[0], key) then [d.volume] else []) + AppliedVolumes(d.applied, events[1..], key)
  }

  predicate Priced(trades: seq<TradeReport>) {
    forall i :: 0 <= i < |trades| ==> trades[i].volume > 0 && trades[i].price > 0.0
  }

  /** No other order's event carries the order's client id or its tracking key. */
  predicate UniqueAmong(o: Followed, events: seq<OrderEvent>) {
    forall e :: e in events && e.orderId != o.ref ==> e.clientOrderId != o.client && TrackingKey(e) != o.Key()
  }

  predicate Identified(o: Followed) {
    o.client != "" && o.ref != "" && o.client != o.ref
  }

  lemma NotableIsTracked(o: Followed, e: OrderEvent, t: TradeReport, done: int)
    requires Identified(o) && NoteOf(e) == TradeNote(o, t, done) && e.orderId == o.ref
    requires done >= 0 && t.volume > 0 && t.price > 0.0
    ensures FillOfKey(e, o.Key()) && e.filledVolume == done + t.volume
  {
    assert "client:" + (o.accountId + "|" + o.strategyId + "|") + o.client == o.Key();
  }

  /** Following the notes one event at a time. */
  lemma FirstNote(events: seq<OrderEvent>, o: Followed, trades: seq<TradeReport>, done: int)
    requires events != [] && Notes(events, o.ref) == Expected(o, trades, done)
    ensures Notable(events[0], o.ref) ==>
      trades != [] && NoteOf(events[0]) == TradeNote(o, trades[0], done)
      && Notes(events[1..], o.ref) == Expected(o, trades[1..], done + trades[0].volume)
      && Volumes(trades) == [trades[0].volume] + Volumes(trades[1..])
    ensures !Notable(events[0], o.ref) ==> Notes(events[1..], o.ref) == Notes(events, o.ref)
  {
    hide NoteOf, TradeNote, Notable;
    var rest := Notes(events[1..], o.ref);
    assert ([NoteOf(events[0])] + rest)[1..] == rest;
    if trades != [] {
      var others := Expected(o, trades[1..], done + trades[0].volume);
      assert ([TradeNote(o, trades[0], done)] + others)[1..] == others;
    }
  }

  lemma NoNotes(o: Followed, trades: seq<TradeReport>, done: int)
    requires Notes([], o.ref) == Expected(o, trades, done)
    ensures Volumes(trades) == []
  {
  }

  /** The account applies each trade's volume, once. */
  lemma {:induction false} AccountAppliesEachTrade(applied: Applied, events: seq<OrderEvent>, o: Followed,
                                                   trades: seq<TradeReport>, done: int)
    requires Identified(o) && UniqueAmong(o, events) && Priced(trades)
    requires Notes(events, o.ref) == Expected(o, trades, done)
    requires done >= 0 && AppliedAt(applied, o.Key()) == done
    ensures AppliedVolumes(applied, events, o.Key()) == Volumes(trades)
    decreases |events|
  {
    hide TrackingKey, NoteOf, Followed.Key, Notes, Expected, Volumes, TradeNote;
    if events == [] {
      NoNotes(o, trades, done);
    } else {
      var e, d := events[0], Consume(applied, events[0]);
      FirstNote(events, o, trades, done);
      assert UniqueAmong(o, events[1..]);
      if Notable(e, o.ref) {
        NotableIsTracked(o, e, trades[0], done);
        AccountAppliesEachTrade(d.applied, events[1..], o, trades[1..], done + trades[0].volume);
      } else {
        assert e in events && !FillOfKey(e, o.Key());
        AccountAppliesEachTrade(d.applied, events[1..], o, trades, done);
      }
    }
  }

  /** A slot that tracks the order by its client id sees each trade's volume, once. */
  lemma {:induction false} SlotSeesEachTrade(slot: Slot, events: seq<OrderEvent>, o: Followed,
                                             trades: seq<TradeReport>, done: int)
    requires Identified(o) && UniqueAmong(o, events) && Priced(trades)
    requires Notes(events, o.ref) == Expected(o, trades, done)
    requires done >= 0 && slot.filledVolume == done && slot.clientOrderId == Some(o.client)
    requires slot.brokerOrderId.None? || slot.brokerOrderId == Some(o.ref)
    ensures Increments(slot, events) == Volumes(trades)
    decreases |events|
  {
    hide TrackingKey, Followed.Key, Notes, Expected, Volumes;
    if events == [] {
      NoNotes(o, trades, done);
    } else {
      var e, seen := events[0], See(slot, events[0]);
      FirstNote(events, o, trades, done);
      assert UniqueAmong(o, events[1..]);
      if Notable(e, o.ref) {
        SlotSeesEachTrade(seen.slot, events[1..], o, trades[1..], done + trades[0].volume);
      } else {
        assert e in events;
        SlotSeesEachTrade(seen.slot, events[1..], o, trades, done);
        assert [] + Increments(seen.slot, events[1..]) == Increments(slot, events);
      }
    }
  }

  // ---- The whole chain ----

  lemma {:induction false} RegularTradesArePriced(o: Followed, steps: seq<Step>, done: int)
    requires RegularRun(o, steps, done)
    ensures Priced(TradesOf(steps, o.ref))
    decreases |steps|
  {
    hide Seed;
    if steps != [] {
      RegularTradesArePriced(o, steps[1..], DoneAfter(o, steps[0], done));
    }
  }

  /** The note carries the trade's price, and what was traded. */
  predicate Describes(note: FillNote, t: TradeReport) {
    && note.price == t.price && note.instrument == t.instrument && note.exchange == t.exchange
    && note.side == t.side && note.offset == t.offset
  }

  /** Read off the expected notes: a running total per trade, and the last one alone is marked filled. */
  lemma {:induction false} ExpectedAt(o: Followed, trades: seq<TradeReport>, done: int, i: nat)
    requires Priced(trades) && i < |trades| && done + Sum(Volumes(trades)) == o.volume
    ensures |Expected(o, trades, done)| == |trades|
    ensures Expected(o, trades, done)[i].cumulative == done + Sum(Volumes(trades[..i + 1]))
    ensures Describes(Expected(o, trades, done)[i], trades[i])
    ensures Expected(o, trades, done)[i].status == if i == |trades| - 1 then Filled else PartiallyFilled
  {
    var v := trades[0].volume;
    assert Volumes(trades)[1..] == Volumes(trades[1..]);
    assert Volumes(trades[..i + 1])[1..] == Volumes(trades[1..][..i]);
    PricedSumIsPositive(trades[1..]);
    ExpectedHasOneEach(o, trades[1..], done + v);
    if i > 0 {
      ExpectedAt(o, trades[1..], done + v, i - 1);
    } else {
      assert Volumes(trades[1..][..0]) == [];
    }
  }

  lemma {:induction false} ExpectedHasOneEach(o: Followed, trades: seq<TradeReport>, done: int)
    ensures |Expected(o, trades, done)| == |trades|
  {
    if trades != [] {
      ExpectedHasOneEach(o, trades[1..], done + trades[0].volume);
    }
  }

  lemma {:induction false} PricedSumIsPositive(trades: seq<TradeReport>)
    requires Priced(trades)
    ensures Sum(Volumes(trades)) >= 0 && (trades != [] ==> Sum(Volumes(trades)) > 0)
  {
    if trades != [] {
      PricedSumIsPositive(trades[1..]);
      assert Volumes(trades)[1..] == Volumes(trades[1..]);
    }
  }

  function FollowedBy(g: State, q: Request): Followed
    requires RefFor(g, q).Some?
  {
    Followed(RefFor(g, q).value, q.order.clientOrderId, g.codeToId[q.code], g.accountId, q.order.volume)
  }

  lemma BegunIsWorking(g: State, q: Request)
    requires Bijective(g) && RefFor(g, q).Some? && q.order.clientOrderId != "" && q.order.volume > 0
    ensures Working(Begun(g, q), FollowedBy(g, q), 0)
    ensures FollowedBy(g, q).ref != ""
  {
    hide Format, Seed, ParseCode;
    FormatReadsBack(g.sequence + 1, q.code);
  }

  /** An order of volume V with a client id of its own, from the moment it is on record, whose trades add up to V: whatever
      status reports and other orders come between, and whether its submission is announced before or after its trades,
      each trade raises one fill event with the running total, the last one alone says filled, and the account applies,
      and a slot tracking the order sees, exactly the volumes of the trades. */
  lemma OrderIsFilledOnce(g: State, q: Request, steps: seq<Step>, applied: Applied, slot: Slot)
    requires Bijective(g) && RefFor(g, q).Some? && q.order.volume > 0 && Identified(FollowedBy(g, q))
    requires RegularRun(FollowedBy(g, q), steps, 0)
    requires Sum(Volumes(TradesOf(steps, FollowedBy(g, q).ref))) == q.order.volume
    requires UniqueAmong(FollowedBy(g, q), Log(Begun(g, q), steps))
    requires AppliedAt(applied, FollowedBy(g, q).Key()) == 0
    requires slot.clientOrderId == Some(q.order.clientOrderId) && slot.brokerOrderId.None? && slot.filledVolume == 0
    ensures var o := FollowedBy(g, q);
      var trades, events := TradesOf(steps, o.ref), Log(Begun(g, q), steps);
      var notes := Notes(events, o.ref);
      && |notes| == |trades|
      && (forall i :: 0 <= i < |trades| ==>
            && notes[i].cumulative == Sum(Volumes(trades[..i + 1])) && Describes(notes[i], trades[i])
            && (notes[i].status.Filled? <==> i == |trades| - 1))
      && AppliedVolumes(applied, events, o.Key()) == Volumes(trades)
      && Increments(slot, events) == Volumes(trades)
  {
    hide RefFor, Begun, Log, UniqueAmong, RegularRun, Working, Expected, Followed.Key;
    var o, begun := FollowedBy(g, q), Begun(g, q);
    var trades, events := TradesOf(steps, o.ref), Log(begun, steps);
    BegunIsWorking(g, q);
    TradesBecomeRunningTotals(begun, o, steps, 0);
    RegularTradesArePriced(o, steps, 0);
    AccountAppliesEachTrade(applied, events, o, trades, 0);
    SlotSeesEachTrade(slot, events, o, trades, 0);
    ExpectedHasOneEach(o, trades, 0);
    forall i | 0 <= i < |trades|
      ensures Expected(o, trades, 0)[i].cumulative == Sum(Volumes(trades[..i + 1]))
      ensures Describes(Expected(o, trades, 0)[i], trades[i])
      ensures Expected(o, trades, 0)[i].status.Filled? <==> i == |trades| - 1 {
      ExpectedAt(o, trades, 0, i);
    }
  }

  lemma {:induction false} AppliedIsTheSum(applied: Applied, events: seq<OrderEvent>, key: string)
    ensures AppliedBy(applied, events, key) == Sum(AppliedVolumes(applied, events, key))
    decreases |events|
  {
    hide Consume, FillOfKey;
    if events != [] {
      var d := Consume(applied, events[0]);
      AppliedIsTheSum(d.applied, events[1..], key);
      var rest := AppliedVolumes(d.applied, events[1..], key);
      assert ([d.volume] + rest)[1..] == rest && [] + rest == rest;
    }
  }

  /** Delivered again, in any order and any number of times, the same events apply the order's volume and no more. */
  lemma RedeliveryAppliesTheOrder(applied: Applied, events: seq<OrderEvent>, again: seq<OrderEvent>, o: Followed,
                                  trades: seq<TradeReport>)
    requires Identified(o) && UniqueAmong(o, events) && Priced(trades)
    requires Notes(events, o.ref) == Expected(o, trades, 0)
    requires AppliedAt(applied, o.Key()) == 0 && (forall e :: e in events <==> e in again)
    ensures AppliedBy(applied, again, o.Key()) == Sum(Volumes(trades))
  {
    hide UniqueAmong, Notes, Expected, TrackingKey, AppliedBy;
    AccountAppliesEachTrade(applied, events, o, trades, 0);
    AppliedIsTheSum(applied, events, o.Key());
    DeliveryDoesNotMatter(applied, events, again, o.Key());
  }
}
