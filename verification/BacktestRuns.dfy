/** Whole backtest runs: what every sequence of account operations keeps, stated against the events they emitted. */
module BacktestRuns {
  import opened Numeric
  import opened Text
  import opened Domain
  import opened Ledger
  import opened Matcher
  import opened Backtest
  import opened BacktestBooks
  import opened BacktestAccount

  datatype Step =
    | SubmitStep(request: OrderRequest, market: Market)
    | ServiceStep(market: Market)
    | ActivateStep(tick: MarketTick)
    | CancelStep(strategyId: string, clientOrderId: string, timestamp: string)
    | RollStep

  function Apply(a: Account, s: Step): (out: Result)
    requires WellFormed(a)
    ensures WellFormed(out.account)
  {
    match s
    case SubmitStep(r, m) => Submit(a, r, m)
    case ServiceStep(m) => Service(a, m)
    case ActivateStep(tick) => Result(Activate(a, tick), [])
    case CancelStep(strategy, client, timestamp) => Cancel(a, strategy, client, timestamp)
    case RollStep => Result(RollAccount(a), [])
  }

  /** The account after a run, and the log of everything it emitted. */
  function Run(a: Account, steps: seq<Step>): (out: Result)
    requires WellFormed(a)
    ensures WellFormed(out.account)
  {
    if steps == [] then Result(a, [])
    else
      var before := Run(a, steps[..|steps| - 1]);
      var last := Apply(before.account, steps[|steps| - 1]);
      Result(last.account, before.events + last.events)
  }

  /** The events of one attachment. */
  function Of(log: seq<OrderEvent>, name: string): seq<OrderEvent> {
    if log == [] then []
    else
      Of(log[..|log| - 1], name) + IfOwn(LastOf(log), name)
  }

  function IfOwn(e: OrderEvent, name: string): seq<OrderEvent> {
    if e.strategyId == name then [e] else []
  }

  lemma OfOneMore(log: seq<OrderEvent>, e: OrderEvent, name: string)
    ensures Of(log + [e], name) == Of(log, name) + IfOwn(e, name)
  {
    hide IfOwn;
    assert (log + [e])[..|log|] == log;
  }

  lemma {:induction false} OfConcat(log: seq<OrderEvent>, more: seq<OrderEvent>, name: string)
    ensures Of(log + more, name) == Of(log, name) + Of(more, name)
    decreases |more|
  {
    hide Of, IfOwn;
    if more == [] {
      assert log + more == log && Of([], name) == [] by {
        OfNothing(log, name);
      }
    } else {
      var front, last := more[..|more| - 1], more[|more| - 1];
      OfConcat(log, front, name);
      OfOneMore(log + front, last, name);
      OfOneMore(front, last, name);
      Associates(Of(log, name), Of(front, name), IfOwn(last, name));
      assert front + [last] == more && (log + front) + [last] == log + more;
    }
  }

  lemma OfNothing(log: seq<OrderEvent>, name: string)
    ensures Of([], name) == [] && log + [] == log
  {
  }

  lemma {:induction false} OfOwn(events: seq<OrderEvent>, name: string, other: string)
    requires forall i :: 0 <= i < |events| ==> events[i].strategyId == name
    ensures Of(events, other) == if other == name then events else []
  {
    if events != [] {
      OfOwn(events[..|events| - 1], name, other);
    }
  }

  function NetSum(attachments: Attachments, names: seq<string>, i: string): int
    requires Lists(attachments, names)
  {
    if names == [] then 0
    else NetSum(attachments, names[..|names| - 1], i) + PositionOf(attachments[names[|names| - 1]], i).Net()
  }

  /** The snapshot shows initial cash plus the profit of the attachments, and their net positions. */
  ghost predicate SnapshotAgrees(a: Account)
    requires WellFormed(a)
  {
    && a.realized == PnlOver(a.attachments, a.roster)
    && a.cash == a.initialCash + a.realized
    && (forall i :: NetAt(a.netPositions, i) == NetSum(a.attachments, a.roster, i))
  }

  ghost predicate AllBooks(attachments: Attachments, log: seq<OrderEvent>) {
    forall n :: n in attachments ==> Books(attachments[n], n, Of(log, n))
  }

  /** No id from `next` on has been submitted to any attachment. */
  ghost predicate IdsFresh(account: string, attachments: Attachments, next: nat, log: seq<OrderEvent>) {
    forall n, k :: n in attachments && k >= next ==> OrderId(account, k) !in SubmittedIds(Of(log, n))
  }

  ghost predicate AccountBooks(a: Account, log: seq<OrderEvent>)
    requires WellFormed(a)
  {
    && AllBooks(a.attachments, log)
    && IdsFresh(a.id, a.attachments, a.nextOrderId, log)
    && SnapshotAgrees(a)
  }

  // ---- The snapshot ----

  lemma {:induction false} NetPositionsSum(attachments: Attachments, names: seq<string>, i: string)
    requires Lists(attachments, names)
    ensures NetAt(NetPositions(attachments, names), i) == NetSum(attachments, names, i)
  {
    if names != [] {
      NetPositionsSum(attachments, names[..|names| - 1], i);
    }
  }

  lemma RefreshAgrees(a: Account)
    requires WellFormed(a)
    ensures SnapshotAgrees(Refresh(a))
  {
    forall i ensures NetAt(Refresh(a).netPositions, i) == NetSum(a.attachments, a.roster, i) {
      NetPositionsSum(a.attachments, a.roster, i);
    }
  }

  /** Same profit and same net positions, whatever else differs. */
  ghost predicate SameTotals(a: Attachment, b: Attachment) {
    a.pnl == b.pnl && forall i :: PositionOf(a, i).Net() == PositionOf(b, i).Net()
  }

  lemma {:induction false} SumsDependOnTotals(x: Attachments, y: Attachments, names: seq<string>)
    requires Lists(x, names) && Lists(y, names)
    requires forall n :: n in names ==> SameTotals(x[n], y[n])
    ensures PnlOver(x, names) == PnlOver(y, names)
    ensures forall i :: NetSum(x, names, i) == NetSum(y, names, i)
  {
    if names != [] {
      var last := names[|names| - 1];
      SumsDependOnTotals(x, y, names[..|names| - 1]);
      assert SameTotals(x[last], y[last]);
    }
  }

  lemma StillAgrees(a: Account, b: Account)
    requires WellFormed(a) && WellFormed(b) && SnapshotAgrees(a)
    requires b == a.(attachments := b.attachments, nextOrderId := b.nextOrderId)
    requires forall n :: n in a.attachments ==> SameTotals(a.attachments[n], b.attachments[n])
    ensures SnapshotAgrees(b)
  {
    hide SameTotals;
    SumsDependOnTotals(a.attachments, b.attachments, a.roster);
  }

  // ---- One attachment acts ----

  lemma OfOne(log: seq<OrderEvent>, events: seq<OrderEvent>, name: string, other: string)
    requires forall i :: 0 <= i < |events| ==> events[i].strategyId == name
    ensures Of(log + events, other) == if other == name then Of(log, other) + events else Of(log, other)
  {
    OfConcat(log, events, other);
    OfOwn(events, name, other);
    assert Of(log, other) + [] == Of(log, other);
  }

  /** One attachment emits `events` and keeps its books; the others see nothing. */
  lemma OneActs(x: Attachments, name: string, after: Attachment, log: seq<OrderEvent>, events: seq<OrderEvent>)
    requires AllBooks(x, log) && name in x && Books(after, name, Of(log, name) + events)
    requires forall i :: 0 <= i < |events| ==> events[i].strategyId == name
    ensures AllBooks(x[name := after], log + events)
  {
    hide Books;
    forall n | n in x ensures Books(x[name := after][n], n, Of(log + events, n)) {
      OfOne(log, events, name, n);
    }
  }

  /** Events that submit nothing leave the ids as fresh as they were. */
  lemma NoNewIds(account: string, x: Attachments, y: Attachments, next: nat, name: string, log: seq<OrderEvent>,
                 events: seq<OrderEvent>)
    requires IdsFresh(account, x, next, log) && y.Keys == x.Keys
    requires forall i :: 0 <= i < |events| ==> events[i].strategyId == name && !events[i].status.Submitted?
    ensures IdsFresh(account, y, next, log + events)
  {
    hide OrderId, SubmittedIds;
    forall n | n in x ensures SubmittedIds(Of(log + events, n)) == SubmittedIds(Of(log, n)) {
      OfOne(log, events, name, n);
      SameIds(Of(log, n), events);
    }
  }

  /** A submission uses up the next id. */
  lemma OneNewId(account: string, x: Attachments, y: Attachments, next: nat, name: string, log: seq<OrderEvent>,
                 events: seq<OrderEvent>)
    requires IdsFresh(account, x, next, log) && y.Keys == x.Keys
    requires forall i :: 0 <= i < |events| ==> events[i].strategyId == name
    requires name in x ==> SubmittedIds(Of(log, name) + events) == SubmittedIds(Of(log, name)) + {OrderId(account, next)}
    ensures IdsFresh(account, y, next + 1, log + events)
  {
    hide OrderId, SubmittedIds;
    forall n, k | n in y && k >= next + 1 ensures OrderId(account, k) !in SubmittedIds(Of(log + events, n)) {
      OfOne(log, events, name, n);
      if OrderId(account, k) == OrderId(account, next) {
        OrderIdInjective(account, k, next);
      }
    }
  }

  lemma {:induction false} SameIds(trace: seq<OrderEvent>, events: seq<OrderEvent>)
    requires forall i :: 0 <= i < |events| ==> !events[i].status.Submitted?
    ensures SubmittedIds(trace + events) == SubmittedIds(trace)
    decreases |events|
  {
    if events == [] {
      assert trace + events == trace;
    } else {
      var last := |events| - 1;
      SameIds(trace, events[..last]);
      assert trace + events == trace + events[..last] + [events[last]];
      SubmissionOne(trace + events[..last], events[last]);
    }
  }

  lemma OrderIdInjective(account: string, m: nat, n: nat)
    requires OrderId(account, m) == OrderId(account, n)
    ensures m == n
  {
    var prefix := account + "-";
    assert OrderId(account, m)[|prefix|..] == Decimal(m) && OrderId(account, n)[|prefix|..] == Decimal(n);
    DecimalInjective(m, n);
  }

  lemma SubmitKeepsAccount(a: Account, r: OrderRequest, m: Market, log: seq<OrderEvent>)
    requires WellFormed(a) && AccountBooks(a, log)
    ensures var out := Submit(a, r, m); AccountBooks(out.account, log + out.events)
  {
    hide Books, SubmitTo, SubmittedIds, Refresh, OrderId, MakeEvent, SnapshotAgrees, AllBooks, FateOf, SameTotals;
    var out, orderId, name := Submit(a, r, m), OrderId(a.id, a.nextOrderId), r.strategyId;
    var next := a.(nextOrderId := a.nextOrderId + 1);
    if name !in a.attachments {
      UnknownIsIgnored(a.attachments, r, orderId, m, log);
      OneNewId(a.id, a.attachments, a.attachments, a.nextOrderId, name, log, out.events);
      NextKeepsSnapshot(a, next);
    } else {
      assert orderId !in SubmittedIds(Of(log, name));
      OwnBooks(a.attachments, name, log);
      SubmitKeepsAttachments(a.attachments, name, r, orderId, m, log);
      var after := next.(attachments := a.attachments[name := SubmitTo(a.attachments[name], r, orderId, m).attachment]);
      OneNewId(a.id, a.attachments, after.attachments, a.nextOrderId, name, log, out.events);
      if FateOf(a.attachments[name], r, orderId, m).FilledAt? {
        RefreshAgrees(after);
        RefreshKeepsRest(after);
      } else {
        UnfilledKeepsTotals(a.attachments[name], r, orderId, m);
        OthersKeepTotals(a.attachments, name, after.attachments[name]);
        StillAgrees(a, after);
      }
    }
  }

  lemma OwnBooks(x: Attachments, name: string, log: seq<OrderEvent>)
    requires AllBooks(x, log) && name in x
    ensures Books(x[name], name, Of(log, name))
  {
  }

  lemma OthersKeepTotals(x: Attachments, name: string, after: Attachment)
    requires name in x && SameTotals(x[name], after)
    ensures forall n :: n in x ==> SameTotals(x[n], x[name := after][n])
  {
  }

  lemma SubmitKeepsAttachments(x: Attachments, name: string, r: OrderRequest, orderId: string, m: Market,
                               log: seq<OrderEvent>)
    requires AllBooks(x, log) && name in x && r.strategyId == name && orderId !in SubmittedIds(Of(log, name))
    ensures var out := SubmitTo(x[name], r, orderId, m);
      && AllBooks(x[name := out.attachment], log + out.events)
      && (forall i :: 0 <= i < |out.events| ==> out.events[i].strategyId == name)
      && SubmittedIds(Of(log, name) + out.events) == SubmittedIds(Of(log, name)) + {orderId}
  {
    hide Books, SubmitTo, SubmittedIds, AllBooks;
    OwnBooks(x, name, log);
    SubmitKeepsBooks(x[name], name, r, orderId, m, Of(log, name));
    var out := SubmitTo(x[name], r, orderId, m);
    OneActs(x, name, out.attachment, log, out.events);
  }

  lemma NextKeepsSnapshot(a: Account, b: Account)
    requires WellFormed(a) && SnapshotAgrees(a) && b == a.(nextOrderId := b.nextOrderId)
    ensures SnapshotAgrees(b)
  {
  }

  lemma RefreshKeepsRest(a: Account)
    requires WellFormed(a)
    ensures var b := Refresh(a); b.attachments == a.attachments && b.id == a.id && b.nextOrderId == a.nextOrderId
                                 && b.roster == a.roster
  {
  }

  lemma UnknownIsIgnored(x: Attachments, r: OrderRequest, orderId: string, m: Market, log: seq<OrderEvent>)
    requires r.strategyId !in x && AllBooks(x, log)
    ensures var events := [MakeEvent(r, orderId, Submitted, 0, 0.0, m.tick.timestamp),
                           MakeEvent(r, orderId, Rejected, 0, 0.0, m.tick.timestamp)];
      && AllBooks(x, log + events)
      && forall i :: 0 <= i < |events| ==> events[i].strategyId == r.strategyId
  {
    hide Books;
    var events := [MakeEvent(r, orderId, Submitted, 0, 0.0, m.tick.timestamp),
                   MakeEvent(r, orderId, Rejected, 0, 0.0, m.tick.timestamp)];
    forall n | n in x ensures Of(log + events, n) == Of(log, n) {
      OfOne(log, events, r.strategyId, n);
    }
  }

  lemma UnfilledKeepsTotals(a: Attachment, r: OrderRequest, orderId: string, m: Market)
    requires !FateOf(a, r, orderId, m).FilledAt?
    ensures SameTotals(a, SubmitTo(a, r, orderId, m).attachment)
  {
    hide FateOf, MakeEvent, SnapshotOf;
    var b := SubmitTo(a, r, orderId, m).attachment;
    forall i ensures PositionOf(b, i).Net() == PositionOf(a, i).Net() {
      assert b.positions == Touch(a, r.instrument).positions;
    }
  }

  // ---- Service ----

  lemma {:induction false} ServiceOverKeeps(a: Account, names: seq<string>, m: Market, log: seq<OrderEvent>)
    requires WellFormed(a) && Lists(a.attachments, names)
    requires AllBooks(a.attachments, log) && IdsFresh(a.id, a.attachments, a.nextOrderId, log)
    ensures var out := ServiceOver(a, names, m);
      && AllBooks(out.account.attachments, log + out.events)
      && IdsFresh(a.id, out.account.attachments, a.nextOrderId, log + out.events)
  {
    hide Books, ServiceAttachment, From, AllBooks, IdsFresh;
    if names == [] {
      assert log + [] == log;
    } else {
      var name := names[|names| - 1];
      var shorter := names[..|names| - 1];
      ServiceOverKeeps(a, shorter, m, log);
      var before := ServiceOver(a, shorter, m);
      var x, all := before.account.attachments, log + before.events;
      var out := ServiceAttachment(x[name], m);
      OwnBooks(x, name, all);
      ServiceKeepsBooks(x[name], name, m, Of(all, name));
      FromNames(out.events, name);
      OneActs(x, name, out.attachment, all, out.events);
      NoNewIds(a.id, x, x[name := out.attachment], a.nextOrderId, name, all, out.events);
      assert log + (before.events + out.events) == all + out.events;
    }
  }

  lemma {:induction false} QuietServiceOver(a: Account, names: seq<string>, m: Market)
    requires WellFormed(a) && Lists(a.attachments, names) && ServiceOver(a, names, m).events == []
    ensures forall n :: n in a.attachments ==> SameTotals(a.attachments[n], ServiceOver(a, names, m).account.attachments[n])
  {
    hide ServiceAttachment;
    if names != [] {
      var name, shorter := names[|names| - 1], names[..|names| - 1];
      var before := ServiceOver(a, shorter, m);
      assert before.events + ServiceAttachment(before.account.attachments[name], m).events == [];
      QuietServiceOver(a, shorter, m);
      QuietServiceKeepsTotals(before.account.attachments[name], m);
    }
  }

  lemma FromNames(events: seq<OrderEvent>, name: string)
    requires From(events, name)
    ensures forall i :: 0 <= i < |events| ==> events[i].strategyId == name && !events[i].status.Submitted?
  {
  }

  /** Service that emits nothing fills nothing. */
  lemma {:induction false} QuietPrefix(a: Attachment, orders: seq<PendingOrder>, m: Market)
    requires ServiceOrders(a, orders, m).events == []
    ensures ServiceOrders(a, orders, m).attachment == a
  {
    hide MatchOf, MakeEvent, BookFill, CloseOrder, CloseRequestIsValid, SnapshotOf;
    if orders != [] {
      QuietPrefix(a, orders[..|orders| - 1], m);
    }
  }

  lemma QuietServiceKeepsTotals(a: Attachment, m: Market)
    requires ServiceAttachment(a, m).events == []
    ensures SameTotals(a, ServiceAttachment(a, m).attachment)
  {
    hide ServiceOrders;
    QuietPrefix(a, a.pending, m);
    forall i ensures PositionOf(ServiceAttachment(a, m).attachment, i) == PositionOf(a, i) {
    }
  }

  lemma ServiceKeepsAccount(a: Account, m: Market, log: seq<OrderEvent>)
    requires WellFormed(a) && AccountBooks(a, log)
    ensures var out := Service(a, m); AccountBooks(out.account, log + out.events)
  {
    hide AllBooks, IdsFresh, ServiceOver, SnapshotAgrees, Refresh, SameTotals;
    ServiceOverKeeps(a, a.roster, m, log);
    var out := ServiceOver(a, a.roster, m);
    if out.events == [] {
      QuietServiceOver(a, a.roster, m);
      StillAgrees(a, out.account);
    } else {
      RefreshAgrees(out.account);
      RefreshKeepsRest(out.account);
    }
  }

  // ---- The other steps ----

  lemma CancelKeepsAccount(a: Account, strategyId: string, clientOrderId: string, timestamp: string,
                           log: seq<OrderEvent>)
    requires WellFormed(a) && AccountBooks(a, log)
    ensures var out := Cancel(a, strategyId, clientOrderId, timestamp); AccountBooks(out.account, log + out.events)
  {
    hide AllBooks, IdsFresh, Books, CancelIn, SnapshotAgrees, From, SameTotals;
    var x, out := a.attachments, Cancel(a, strategyId, clientOrderId, timestamp);
    if strategyId !in x {
      assert log + [] == log;
    } else {
      OwnBooks(x, strategyId, log);
      CancelKeepsBooks(x[strategyId], strategyId, clientOrderId, timestamp, Of(log, strategyId));
      FromNames(out.events, strategyId);
      var after := out.account.attachments[strategyId];
      OneActs(x, strategyId, after, log, out.events);
      NoNewIds(a.id, x, x[strategyId := after], a.nextOrderId, strategyId, log, out.events);
      CancelKeepsTotals(x[strategyId], clientOrderId, timestamp);
      OthersKeepTotals(x, strategyId, after);
      StillAgrees(a, out.account);
    }
  }

  lemma CancelKeepsTotals(a: Attachment, clientOrderId: string, timestamp: string)
    ensures SameTotals(a, CancelIn(a, clientOrderId, timestamp).attachment)
  {
    hide CancelEvent, Find;
    var b := CancelIn(a, clientOrderId, timestamp).attachment;
    forall i ensures PositionOf(b, i) == PositionOf(a, i) {
    }
  }

  lemma ActivateKeepsAccount(a: Account, tick: MarketTick, log: seq<OrderEvent>)
    requires WellFormed(a) && AccountBooks(a, log)
    ensures AccountBooks(Activate(a, tick), log)
  {
    hide Books, SubmittedIds, SnapshotAgrees, OrderId, ActivateIn, SameTotals;
    var b := Activate(a, tick);
    forall n | n in a.attachments ensures Books(b.attachments[n], n, Of(log, n)) {
      ActivateKeepsBooks(a.attachments[n], n, tick, Of(log, n));
    }
    forall n | n in a.attachments ensures SameTotals(a.attachments[n], b.attachments[n]) {
      ActivateKeepsTotals(a.attachments[n], tick);
    }
    StillAgrees(a, b);
  }

  lemma ActivateKeepsTotals(a: Attachment, tick: MarketTick)
    ensures SameTotals(a, ActivateIn(a, tick))
  {
    hide StillScheduled, Due;
    forall i ensures PositionOf(ActivateIn(a, tick), i) == PositionOf(a, i) {
    }
  }

  lemma RollKeepsAccount(a: Account, log: seq<OrderEvent>)
    requires WellFormed(a) && AccountBooks(a, log)
    ensures AccountBooks(RollAccount(a), log)
  {
    hide Books, SubmittedIds, SnapshotAgrees, OrderId, RollAttachment, Refresh;
    var rolled := a.(attachments := map n | n in a.attachments :: RollAttachment(a.attachments[n]));
    forall n | n in a.attachments ensures Books(rolled.attachments[n], n, Of(log, n)) {
      RollKeepsBooks(a.attachments[n], n, Of(log, n));
    }
    RefreshAgrees(rolled);
    RefreshKeepsRest(rolled);
  }

  // ---- Runs ----

  lemma ApplyKeepsAccount(a: Account, s: Step, log: seq<OrderEvent>)
    requires WellFormed(a) && AccountBooks(a, log)
    ensures var out := Apply(a, s); AccountBooks(out.account, log + out.events)
  {
    hide AccountBooks, Submit, Service, Activate, Cancel, RollAccount;
    assert log + [] == log;
    match s {
      case SubmitStep(r, m) => SubmitKeepsAccount(a, r, m, log);
      case ServiceStep(m) => ServiceKeepsAccount(a, m, log);
      case ActivateStep(tick) => ActivateKeepsAccount(a, tick, log);
      case CancelStep(strategy, client, timestamp) => CancelKeepsAccount(a, strategy, client, timestamp, log);
      case RollStep => RollKeepsAccount(a, log);
    }
  }

  /** An account before its first tick: flat, without orders, its snapshot refreshed. */
  ghost predicate Fresh(a: Account)
    requires WellFormed(a)
  {
    && (forall n :: n in a.attachments ==> FreshAttachment(a.attachments[n]))
    && a == Refresh(a)
  }

  ghost predicate FreshAttachment(a: Attachment) {
    && (forall i :: i in a.positions ==> a.positions[i] == FLAT)
    && a.scheduled == [] && a.pending == [] && a.openOrders == map[] && a.closedOrders == [] && a.closedCount == 0
    && a.tradeCount == 0 && a.filledVolume == 0 && a.filledOpenVolume == 0 && a.pnl == 0.0 && a.unbooked == 0.0
  }

  lemma {:induction false} FlatCosts(positions: map<string, Position>)
    requires forall i :: i in positions ==> positions[i] == FLAT
    ensures OpenCosts(positions) == 0.0
    decreases |positions|
  {
    FlatIsFree();
    if positions == map[] {
      assert Costs(positions) == map[];
    } else {
      var k :| k in positions;
      var rest := positions - {k};
      assert rest[k := FLAT] == positions && k !in rest;
      FlatCosts(rest);
      CostsUpdate(rest, k, FLAT);
    }
  }

  lemma FreshBooks(a: Attachment, name: string)
    requires FreshAttachment(a)
    ensures Books(a, name, [])
  {
    FlatCosts(a.positions);
    FlatIsFree();
    NotionalSign(0, 0.0);
    NoFees(a.costs);
    assert IdsOf([]) == [] && IdsOfEvents([]) == [];
  }

  lemma NoFees(costs: CostModel)
    ensures NetOfFees(0.0, 0, costs) == 0.0
  {
  }

  /** Everything an account keeps holds after every run from a fresh account. */
  lemma {:induction false} RunKeepsBooks(a: Account, steps: seq<Step>)
    requires WellFormed(a) && Fresh(a)
    ensures var out := Run(a, steps); AccountBooks(out.account, out.events)
    decreases |steps|
  {
    hide AccountBooks, Apply;
    if steps == [] {
      FreshKeepsBooks(a);
    } else {
      RunKeepsBooks(a, steps[..|steps| - 1]);
      var before := Run(a, steps[..|steps| - 1]);
      ApplyKeepsAccount(before.account, steps[|steps| - 1], before.events);
    }
  }

  lemma FreshKeepsBooks(a: Account)
    requires WellFormed(a) && Fresh(a)
    ensures AccountBooks(a, [])
  {
    hide Books, Refresh, FreshAttachment, SnapshotAgrees;
    RefreshAgrees(a);
    forall n | n in a.attachments ensures Books(a.attachments[n], n, Of([], n)) {
      FreshBooks(a.attachments[n], n);
    }
  }

  // ---- What a reader of the log can rely on ----

  function BoughtFor(trace: seq<OrderEvent>): real {
    if trace == [] then 0.0
    else
      var e := LastOf(trace);
      BoughtFor(trace[..|trace| - 1]) + if Traded(e) && e.side.Buy? then Notional(e.filledVolume, e.filledPrice) else 0.0
  }

  function SoldFor(trace: seq<OrderEvent>): real {
    if trace == [] then 0.0
    else
      var e := LastOf(trace);
      SoldFor(trace[..|trace| - 1]) + if Traded(e) && e.side.Sell? then Notional(e.filledVolume, e.filledPrice) else 0.0
  }

  lemma {:induction false} PaidIsBoughtLessSold(trace: seq<OrderEvent>)
    ensures PaidOver(trace) == BoughtFor(trace) - SoldFor(trace)
  {
    hide Notional;
    if trace != [] {
      var e := LastOf(trace);
      PaidIsBoughtLessSold(trace[..|trace| - 1]);
      NotionalDifference(0, e.filledVolume, e.filledPrice);
      NothingCostsNothing(e.filledPrice);
    }
  }

  lemma NothingCostsNothing(price: real)
    ensures Notional(0, price) == 0.0
  {
  }

  /** Realized profit is what was sold for, less what was bought for, plus the cost of what is still open, times the
      multiplier, less commission on every lot. */
  ghost predicate ProfitIsCashFlow(a: Attachment, trace: seq<OrderEvent>) {
    && a.filledVolume == VolumeOver(trace)
    && a.pnl == (SoldFor(trace) - BoughtFor(trace) + OpenCostOf(a)) * a.costs.multiplier
                - Notional(a.filledVolume, a.costs.commission)
  }

  /** The same, less what closes of lots without a cost have left unbooked. */
  ghost predicate ProfitIsAccounted(a: Attachment, trace: seq<OrderEvent>) {
    && a.filledVolume == VolumeOver(trace)
    && a.pnl == (SoldFor(trace) - BoughtFor(trace) + OpenCostOf(a) - a.unbooked) * a.costs.multiplier
                - Notional(a.filledVolume, a.costs.commission)
  }

  /** No bucket is negative; long lots are those opened by buys less those closed by sells, and short lots the reverse. */
  ghost predicate PositionsMatchTrades(a: Attachment, trace: seq<OrderEvent>) {
    forall i :: PositionOf(a, i).NonNegative() && SidesOf(PositionOf(a, i)) == SidesOver(trace, i)
  }

  /** Every submitted order is scheduled, pending or closed, and only one of them; the open snapshots are those of the
      first two; the closed orders are the events that ended them, in order, and the trade count those with an execution;
      lots are conserved, and the snapshot of an order carries its fill. */
  ghost predicate OrdersPartitioned(a: Attachment, trace: seq<OrderEvent>) {
    var scheduled, pending := Members(IdsOf(a.scheduled)), Members(IdsOf(a.pending));
    var closed := Members(IdsOfEvents(a.closedOrders));
    && SubmittedIds(trace) == scheduled + pending + closed
    && scheduled !! pending && closed !! scheduled + pending
    && a.openOrders.Keys == scheduled + pending
    && a.closedCount + |a.openOrders| == Submissions(trace)
    && a.closedOrders == Endings(trace) && a.tradeCount == Executions(Endings(trace))
    && forall o :: o in a.scheduled + a.pending ==> Live(a, o)
  }

  predicate Live(a: Attachment, o: PendingOrder) {
    && o.remaining + o.filled == o.request.volume
    && (o.request.volume > 0 ==> o.remaining > 0)
    && o.orderId in a.openOrders && a.openOrders[o.orderId].filledVolume == o.filled
  }

  lemma BooksMeanCashFlow(a: Attachment, name: string, trace: seq<OrderEvent>)
    requires Books(a, name, trace)
    ensures ProfitIsAccounted(a, trace)
    ensures OpensPriced(trace) ==> a.unbooked == 0.0
  {
    hide Orders, SidesOver, Notional, OpensPriced;
    PaidIsBoughtLessSold(trace);
    assert OpenCostOf(a) - PaidOver(trace) - a.unbooked == SoldFor(trace) - BoughtFor(trace) + OpenCostOf(a) - a.unbooked;
  }

  lemma WholeProfit(a: Attachment, trace: seq<OrderEvent>)
    requires ProfitIsAccounted(a, trace)
    ensures a.unbooked == 0.0 ==> ProfitIsCashFlow(a, trace)
    ensures a.costs.multiplier > 0.0 && ProfitIsCashFlow(a, trace) ==> a.unbooked == 0.0
  {
    hide Notional, SoldFor, BoughtFor, OpenCostOf, VolumeOver;
    var earned, m := SoldFor(trace) - BoughtFor(trace) + OpenCostOf(a), a.costs.multiplier;
    assert (earned - a.unbooked) * m == earned * m - a.unbooked * m;
  }

  lemma BooksMeanPositions(a: Attachment, name: string, trace: seq<OrderEvent>)
    requires Books(a, name, trace)
    ensures PositionsMatchTrades(a, trace)
  {
    hide Orders, CashFlowHolds;
  }

  lemma BooksMeanPartition(a: Attachment, name: string, trace: seq<OrderEvent>)
    requires Books(a, name, trace)
    ensures OrdersPartitioned(a, trace)
  {
    hide Money, SubmittedIds, Submissions, NoRepeats, Members, IdsOfEvents, IdsOf;
    var live := a.scheduled + a.pending;
    IdsOfJoin(a.scheduled, a.pending);
    DisjointHalves(IdsOf(a.scheduled), IdsOf(a.pending));
    forall o | o in live ensures Live(a, o) {
      var i :| 0 <= i < |live| && live[i] == o;
      assert Tracked(a.openOrders, name, live[i]);
    }
  }

  lemma DisjointHalves(a: seq<string>, b: seq<string>)
    requires NoRepeats(a + b)
    ensures Members(a + b) == Members(a) + Members(b) && Members(a) !! Members(b)
  {
    forall x ensures x in a ==> x !in b {
      if x in a && x in b {
        var i :| 0 <= i < |a| && a[i] == x;
        var j :| 0 <= j < |b| && b[j] == x;
        DistinctAt(a + b, i, |a| + j);
      }
    }
  }

  lemma BooksOverRuns(a: Account, steps: seq<Step>, name: string)
    requires WellFormed(a) && Fresh(a) && name in Run(a, steps).account.attachments
    ensures Books(Run(a, steps).account.attachments[name], name, Of(Run(a, steps).events, name))
  {
    RunKeepsBooks(a, steps);
    hide Run, Books, SnapshotAgrees, Fresh;
  }

  /** The cash-flow identity over every run, at whatever prices: profit is the cash flow less what closes of lots without a
      cost left unbooked. So the whole cash flow is booked exactly when that comes to nothing (at a positive multiplier),
      and it does when every lot was opened at a positive price. */
  lemma CashFlowOverRuns(a: Account, steps: seq<Step>, name: string)
    requires WellFormed(a) && Fresh(a) && name in Run(a, steps).account.attachments
    ensures var own, trace := Run(a, steps).account.attachments[name], Of(Run(a, steps).events, name);
      && ProfitIsAccounted(own, trace)
      && (own.costs.multiplier > 0.0 ==> (ProfitIsCashFlow(own, trace) <==> own.unbooked == 0.0))
      && (OpensPriced(trace) ==> ProfitIsCashFlow(own, trace))
  {
    hide Run, Books, Fresh, OpensPriced, ProfitIsAccounted, ProfitIsCashFlow;
    var own, trace := Run(a, steps).account.attachments[name], Of(Run(a, steps).events, name);
    BooksOverRuns(a, steps, name);
    BooksMeanCashFlow(own, name, trace);
    WholeProfit(own, trace);
  }

  /** The account's cash is its initial cash plus the profit of its attachments, after every run. */
  lemma CashOverRuns(a: Account, steps: seq<Step>)
    requires WellFormed(a) && Fresh(a)
    ensures SnapshotAgrees(Run(a, steps).account)
  {
    RunKeepsBooks(a, steps);
  }

  /** Closing stays exact over every run, whatever closes competed. */
  lemma PositionsOverRuns(a: Account, steps: seq<Step>, name: string)
    requires WellFormed(a) && Fresh(a) && name in Run(a, steps).account.attachments
    ensures PositionsMatchTrades(Run(a, steps).account.attachments[name], Of(Run(a, steps).events, name))
  {
    hide Run, Books, Fresh;
    BooksOverRuns(a, steps, name);
    BooksMeanPositions(Run(a, steps).account.attachments[name], name, Of(Run(a, steps).events, name));
  }

  /** No order is lost, duplicated or left open after it closed, in any run. */
  lemma OrdersOverRuns(a: Account, steps: seq<Step>, name: string)
    requires WellFormed(a) && Fresh(a) && name in Run(a, steps).account.attachments
    ensures OrdersPartitioned(Run(a, steps).account.attachments[name], Of(Run(a, steps).events, name))
  {
    hide Run, Books, Fresh;
    BooksOverRuns(a, steps, name);
    BooksMeanPartition(Run(a, steps).account.attachments[name], name, Of(Run(a, steps).events, name));
  }
}
