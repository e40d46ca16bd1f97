/** Whole runs of the gateway: references, routing and the per-order records. */
module GatewayRuns {
  import opened Text
  import opened Digits
  import opened Domain
  import opened OrderRef
  import opened Gateway

  datatype Step =
    | Register(code: int, id: string)
    | LogIn(failed: bool, maxOrderRef: string)
    | Confirm(failed: bool)
    | Disconnect
    | Begin(request: Request)
    | Refuse(request: Request, ref: string)
    | Announce(request: Request, ref: string, timestamp: string)
    | OrderReturn(report: OrderReport)
    | TradeReturn(trade: TradeReport)
    | InsertReturn(answer: InsertAnswer)
    | Drain
  {
    predicate Callback() { OrderReturn? || TradeReturn? || InsertReturn? }
  }

  function Apply(g: State, step: Step): State {
    match step
    case Register(code, id) => Registered(g, code, id)
    case LogIn(failed, maxOrderRef) => LoggedIn(g, failed, maxOrderRef)
    case Confirm(failed) => Confirmed(g, failed)
    case Disconnect => Disconnected(g)
    case Begin(q) => Begun(g, q)
    case Refuse(q, ref) => Refused(g, q, ref)
    case Announce(q, ref, timestamp) => Announced(g, q, ref, timestamp)
    case OrderReturn(o) => AfterOrder(g, o)
    case TradeReturn(t) => AfterTrade(g, t)
    case InsertReturn(a) => AfterAnswer(g, a)
    case Drain => g.(pending := [])
  }

  function Run(g: State, steps: seq<Step>): State
    decreases |steps|
  {
    if steps == [] then g else Run(Apply(g, steps[0]), steps[1..])
  }

  /** The events a step adds to the queue. */
  function EventsOf(g: State, step: Step): seq<OrderEvent> {
    if step.Drain? then [] else Apply(g, step).pending[|g.pending|..]
  }

  function Log(g: State, steps: seq<Step>): seq<OrderEvent>
    decreases |steps|
  {
    if steps == [] then [] else EventsOf(g, steps[0]) + Log(Apply(g, steps[0]), steps[1..])
  }

  function HandedOver(g: State, step: Step): seq<OrderEvent> {
    if step.Drain? then g.pending else []
  }

  /** What the drains of a run hand over, in order. */
  function Drained(g: State, steps: seq<Step>): seq<OrderEvent>
    decreases |steps|
  {
    if steps == [] then [] else HandedOver(g, steps[0]) + Drained(Apply(g, steps[0]), steps[1..])
  }

  lemma StepConservesEvents(g: State, step: Step)
    ensures HandedOver(g, step) + Apply(g, step).pending == g.pending + EventsOf(g, step)
  {
    hide Forget, Remember, SubmittedEvent, OrderEventOf, TradeEventOf, AnswerEventOf, RefFor;
  }

  /** Every event is handed over once, in the order it was raised. */
  lemma {:induction false} DrainsHandOverTheLog(g: State, steps: seq<Step>)
    ensures Drained(g, steps) + Run(g, steps).pending == g.pending + Log(g, steps)
    decreases |steps|
  {
    hide EventsOf, Apply, HandedOver;
    if steps != [] {
      var next := Apply(g, steps[0]);
      StepConservesEvents(g, steps[0]);
      DrainsHandOverTheLog(next, steps[1..]);
      assert Drained(g, steps) + Run(g, steps).pending
          == HandedOver(g, steps[0]) + (Drained(next, steps[1..]) + Run(next, steps[1..]).pending);
      assert HandedOver(g, steps[0]) + (next.pending + Log(next, steps[1..]))
          == (HandedOver(g, steps[0]) + next.pending) + Log(next, steps[1..]);
      assert g.pending + Log(g, steps) == (g.pending + EventsOf(g, steps[0])) + Log(next, steps[1..]);
    }
  }

  // ---- References ----

  /** The references a run uses up, in order; a submission the broker call refuses uses one up too. */
  function Issued(g: State, steps: seq<Step>): seq<string>
    decreases |steps|
  {
    if steps == [] then [] else IssuedBy(g, steps[0]) + Issued(Apply(g, steps[0]), steps[1..])
  }

  function IssuedBy(g: State, step: Step): seq<string> {
    if step.Begin? && RefFor(g, step.request).Some? then [RefFor(g, step.request).value] else []
  }

  /** A reference this gateway can have made after the given sequence number. */
  predicate IssuedAfter(ref: string, sequence: nat) {
    && |ref| == 12 && AllDigits(ref) && ParseNumeric(ref).Some? && ParseCode(ref).Some?
    && sequence < Seed(ref) <= SEQUENCE_MAX && ref == Format(Seed(ref), ParseCode(ref).value)
  }

  predicate NoLogin(steps: seq<Step>) {
    forall step :: step in steps ==> !step.LogIn?
  }

  lemma StepIssues(g: State, step: Step)
    ensures forall ref :: ref in IssuedBy(g, step) ==> IssuedAfter(ref, g.sequence)
    ensures |IssuedBy(g, step)| <= 1
    ensures !step.LogIn? ==> Apply(g, step).sequence == g.sequence + |IssuedBy(g, step)|
    ensures forall ref :: ref in IssuedBy(g, step) ==> Seed(ref) == g.sequence + 1
  {
    hide Format, Forget, Remember, SubmittedEvent, ParseNumeric, ParseCode, Seed;
    if step.Begin? && RefFor(g, step.request).Some? {
      FormatReadsBack(g.sequence + 1, step.request.code);
    }
  }

  lemma {:induction false} IssuedAreWellFormed(g: State, steps: seq<Step>)
    requires NoLogin(steps)
    ensures forall ref :: ref in Issued(g, steps) ==> IssuedAfter(ref, g.sequence)
    decreases |steps|
  {
    hide Apply, IssuedBy, Format, ParseNumeric, ParseCode, Seed;
    if steps != [] {
      StepIssues(g, steps[0]);
      IssuedAreWellFormed(Apply(g, steps[0]), steps[1..]);
    }
  }

  /** Between logins, references grow: as numbers and as strings, whichever strategies they are for. */
  lemma {:induction false} ReferencesGrow(g: State, steps: seq<Step>, i: nat, j: nat)
    requires NoLogin(steps) && i < j < |Issued(g, steps)|
    ensures NumberOf(Issued(g, steps)[i]) < NumberOf(Issued(g, steps)[j])
    ensures Before(Issued(g, steps)[i], Issued(g, steps)[j])
    decreases |steps|
  {
    hide Apply, IssuedBy, Format, NumberOf, ParseNumeric, ParseCode, Seed, Before;
    var first, rest := IssuedBy(g, steps[0]), Issued(Apply(g, steps[0]), steps[1..]);
    StepIssues(g, steps[0]);
    if i < |first| {
      IssuedAreWellFormed(Apply(g, steps[0]), steps[1..]);
      var a, b := first[i], rest[j - |first|];
      assert IssuedAfter(a, g.sequence) && IssuedAfter(b, Apply(g, steps[0]).sequence);
      LaterIsLarger(Seed(a), ParseCode(a).value, Seed(b), ParseCode(b).value);
    } else {
      ReferencesGrow(Apply(g, steps[0]), steps[1..], i - |first|, j - |first|);
    }
  }

  /** After a login every reference exceeds the number the broker reported, until the next login. */
  lemma ReferencesPassTheBroker(g: State, maxOrderRef: string, steps: seq<Step>)
    requires maxOrderRef != "" && NoLogin(steps)
    ensures forall ref :: ref in Issued(LoggedIn(g, false, maxOrderRef), steps) ==> NumberOf(maxOrderRef) < NumberOf(ref)
  {
    hide Apply, Issued, Format, NumberOf, ParseNumeric, ParseCode;
    var seeded := LoggedIn(g, false, maxOrderRef);
    IssuedAreWellFormed(seeded, steps);
    forall ref | ref in Issued(seeded, steps) ensures NumberOf(maxOrderRef) < NumberOf(ref) {
      assert IssuedAfter(ref, seeded.sequence);
      SeedIsPassed(maxOrderRef, Seed(ref), ParseCode(ref).value);
    }
  }

  /** A step that leaves the gateway unable to submit: a failed login or confirmation, or a lost connection. */
  predicate Interrupts(step: Step) {
    (step.LogIn? && step.failed) || (step.Confirm? && step.failed) || step.Disconnect?
  }

  /** After an interruption no reference is issued, and no cancel sent, until a settlement is confirmed. */
  lemma {:induction false} NothingIssuedUntilConfirmed(g: State, interruption: Step, steps: seq<Step>, client: string)
    requires Interrupts(interruption) && forall step :: step in steps ==> !step.Confirm? || step.failed
    ensures var after := Apply(g, interruption);
      Issued(after, steps) == [] && CancelTarget(Run(after, steps), client) == None
  {
    hide Apply, Issued;
    InterruptionStops(g, interruption);
    IdleIssuesNothing(Apply(g, interruption), steps, client);
  }

  lemma InterruptionStops(g: State, interruption: Step)
    requires Interrupts(interruption)
    ensures !Apply(g, interruption).ready
  {
  }

  lemma {:induction false} IdleIssuesNothing(g: State, steps: seq<Step>, client: string)
    requires !g.ready && forall step :: step in steps ==> !step.Confirm? || step.failed
    ensures Issued(g, steps) == [] && CancelTarget(Run(g, steps), client) == None
    decreases |steps|
  {
    hide Forget, Remember, SubmittedEvent, OrderEventOf, TradeEventOf, AnswerEventOf, Seed, Format;
    if steps != [] {
      IdleIssuesNothing(Apply(g, steps[0]), steps[1..], client);
    }
  }

  // ---- Routing ----

  /** Codes and strategies correspond one to one. */
  predicate Bijective(g: State) {
    && (forall code :: code in g.codeToId ==>
          ValidCode(code) && g.codeToId[code] != ""
          && g.codeToId[code] in g.idToCode && g.idToCode[g.codeToId[code]] == code)
    && (forall id :: id in g.idToCode ==> g.idToCode[id] in g.codeToId && g.codeToId[g.idToCode[id]] == id)
  }

  predicate Extends(earlier: State, later: State) {
    forall code :: code in earlier.codeToId ==> code in later.codeToId && later.codeToId[code] == earlier.codeToId[code]
  }

  lemma StepKeepsRegistrations(g: State, step: Step)
    requires Bijective(g)
    ensures Bijective(Apply(g, step)) && Extends(g, Apply(g, step))
  {
    hide Forget, Remember, SubmittedEvent, OrderEventOf, TradeEventOf, AnswerEventOf, RefFor, Seed;
  }

  /** Registration stays one to one over every run, and a registered code is never given to another strategy. */
  lemma {:induction false} RunKeepsRegistrations(g: State, steps: seq<Step>)
    requires Bijective(g)
    ensures Bijective(Run(g, steps)) && Extends(g, Run(g, steps))
    decreases |steps|
  {
    hide Apply;
    if steps != [] {
      StepKeepsRegistrations(g, steps[0]);
      RunKeepsRegistrations(Apply(g, steps[0]), steps[1..]);
    }
  }

  lemma CallbackNamesStrategy(g: State, callback: Step, e: OrderEvent)
    requires callback.Callback() && e in EventsOf(g, callback)
    ensures e.strategyId == StrategyOf(g.codeToId, e.orderId) && e.accountId == g.accountId
  {
    hide Forget, StrategyOf, LimitShown, ClientShown, Completes, RequestedBy, CumulativeAfter;
    assert |EventsOf(g, callback)| <= 1;
  }

  /** However the run continues, a callback for a reference comes out under the strategy whose code the submission used,
      and no other strategy's reference does; the submission itself may still be under way. */
  lemma CallbacksFindTheirStrategy(g: State, q: Request, steps: seq<Step>, callback: Step, e: OrderEvent)
    requires Bijective(g) && RefFor(g, q).Some? && callback.Callback()
    requires e in EventsOf(Run(Begun(g, q), steps), callback)
    ensures e.orderId == RefFor(g, q).value ==> e.strategyId == g.codeToId[q.code]
    ensures e.orderId == RefFor(g, q).value && q.order.strategyId != "" ==> e.strategyId == q.order.strategyId
    ensures e.strategyId == g.codeToId[q.code] ==> ParseCode(e.orderId) == Some(q.code)
  {
    hide Format, ParseCode, EventsOf, Remember, Forget, SubmittedEvent, Run;
    var submitted := Begun(g, q);
    assert submitted.codeToId == g.codeToId && submitted.idToCode == g.idToCode;
    RunKeepsRegistrations(submitted, steps);
    CallbackNamesStrategy(Run(submitted, steps), callback, e);
    FormatReadsBack(g.sequence + 1, q.code);
  }

  // ---- The per-order records ----

  /** Client ids and references point at each other, and every such order has its exchange and instrument on record. */
  predicate Paired(r: Records) {
    && (forall client :: client in r.refOf ==> r.refOf[client] in r.clientOf && r.clientOf[r.refOf[client]] == client)
    && (forall ref :: ref in r.clientOf ==>
          && r.clientOf[ref] in r.refOf && r.refOf[r.clientOf[ref]] == ref && r.clientOf[ref] != ""
          && ref in r.exchangeOf && ref in r.instrumentOf)
  }

  /** No reference on record is still to be issued. */
  predicate NoneToCome(r: Records, sequence: nat) {
    && (forall ref :: ref in r.clientOf ==> Seed(ref) <= sequence)
    && (forall ref :: ref in r.signalTimeOf ==> Seed(ref) <= sequence)
  }

  predicate RecordsAgree(g: State) {
    Paired(g.records) && NoneToCome(g.records, g.sequence)
  }

  /** Client ids of working orders are not reused, the broker reports nothing of an order whose call failed, so that it is
      still on record when it is refused, and a login does not lower the sequence. */
  predicate Orderly(g: State, step: Step) {
    && (step.Begin? ==> step.request.order.clientOrderId !in g.records.refOf)
    && (step.Refuse? ==> ClientOf(g, step.ref) == step.request.order.clientOrderId)
    && (step.LogIn? && !step.failed && step.maxOrderRef != "" ==> g.sequence <= Seed(step.maxOrderRef))
  }

  predicate OrderlyRun(g: State, steps: seq<Step>)
    decreases |steps|
  {
    steps != [] ==> Orderly(g, steps[0]) && OrderlyRun(Apply(g, steps[0]), steps[1..])
  }

  lemma RememberKeepsPaired(r: Records, ref: string, q: Request)
    requires Paired(r) && ref !in r.clientOf && q.order.clientOrderId !in r.refOf
    ensures Paired(Remember(r, ref, q))
    ensures Lookup(Remember(r, ref, q).clientOf, ref, "") == q.order.clientOrderId
  {
  }

  lemma ForgetKeepsPaired(r: Records, ref: string)
    requires Paired(r)
    ensures Paired(Forget(r, ref, Lookup(r.clientOf, ref, "")))
  {
  }

  lemma BeginKeepsRecords(g: State, q: Request)
    requires RecordsAgree(g) && q.order.clientOrderId !in g.records.refOf
    ensures RecordsAgree(Begun(g, q))
  {
    hide Paired, Seed, Format;
    if RefFor(g, q).Some? {
      FormatReadsBack(g.sequence + 1, q.code);
      RememberKeepsPaired(g.records, RefFor(g, q).value, q);
    }
  }

  lemma StepKeepsRecords(g: State, step: Step)
    requires RecordsAgree(g) && Orderly(g, step)
    ensures RecordsAgree(Apply(g, step))
  {
    hide Paired, Seed, OrderEventOf, TradeEventOf, AnswerEventOf, SubmittedEvent, Begun;
    match step {
      case Begin(q) => BeginKeepsRecords(g, q);
      case Refuse(q, ref) => ForgetKeepsPaired(g.records, ref);
      case OrderReturn(o) => OrderKeepsPaired(g, o);
      case TradeReturn(t) => TradeKeepsPaired(g, t);
      case InsertReturn(a) => ForgetKeepsPaired(g.records, a.orderRef);
      case _ =>
    }
  }

  lemma OrderKeepsPaired(g: State, o: OrderReport)
    requires Paired(g.records)
    ensures Paired(AfterOrder(g, o).records)
  {
    hide Forget, OrderEventOf;
    var noted := AfterOrder(g, o.(status := Accepted)).records;
    assert Paired(noted);
    ForgetKeepsPaired(noted, o.orderRef);
  }

  lemma TradeKeepsPaired(g: State, t: TradeReport)
    requires Paired(g.records)
    ensures Paired(AfterTrade(g, t).records)
  {
    hide Forget, TradeEventOf, CumulativeAfter;
    var counted := g.records.(cumulativeOf := g.records.cumulativeOf[t.orderRef := CumulativeAfter(g, t)]);
    assert Paired(counted);
    ForgetKeepsPaired(counted, t.orderRef);
  }

  lemma {:induction false} RunKeepsRecords(g: State, steps: seq<Step>)
    requires RecordsAgree(g) && OrderlyRun(g, steps)
    ensures RecordsAgree(Run(g, steps))
    decreases |steps|
  {
    hide Apply, RecordsAgree, Orderly;
    if steps != [] {
      StepKeepsRecords(g, steps[0]);
      RunKeepsRecords(Apply(g, steps[0]), steps[1..]);
    }
  }

  /** Over every orderly run a cancel by client id names the reference that bears that id, and nothing made up: the
      exchange and the instrument are the recorded ones. */
  lemma CancelReachesItsOrder(g: State, steps: seq<Step>, client: string)
    requires RecordsAgree(g) && OrderlyRun(g, steps)
    requires CancelTarget(Run(g, steps), client).Some?
    ensures var r := Run(g, steps).records; var (ref, exchange, instrument) := CancelTarget(Run(g, steps), client).value;
      && ref in r.clientOf && r.clientOf[ref] == client
      && ref in r.exchangeOf && exchange == r.exchangeOf[ref]
      && ref in r.instrumentOf && instrument == r.instrumentOf[ref]
  {
    hide Apply, Run, OrderlyRun;
    RunKeepsRecords(g, steps);
  }
}
