/** The tick loop of a backtest, with strategies as arbitrary reactions: skipping the order book while no order is live
    changes nothing. */
module Replay {
  import opened Domain
  import opened Ledger
  import opened TradeFlow
  import opened Matcher
  import opened Backtest
  import opened BacktestAccount
  import opened BacktestRuns

  type Book = a: Account | WellFormed(a)
    ghost witness Account("", 0.0, 0.0, 0.0, map[], [], map[], 0)

  /** What the runtime tells the strategies. */
  datatype Callback =
    | OnPositions
    | OnTick(tick: MarketTick)
    | OnOrder(event: OrderEvent)
    | OnPosition(event: OrderEvent)

  /** What a strategy may do in response; each action carries the identity of its context. */
  datatype Action =
    | Send(accountId: string, strategyId: string, request: OrderRequest)
    | Withdraw(accountId: string, strategyId: string, clientOrderId: string)

  datatype Reaction<M> = Reaction(memory: M, actions: seq<Action>)

  /** The strategies, as one function of their memory, the callback, and all the accounts they can look at; and the
      trading-day label of a tick. */
  datatype Host<!M> = Host(
    react: (M, Callback, map<string, Book>) -> Reaction<M>,
    dayOf: MarketTick -> string)

  /** An event and the account that emitted it. */
  datatype Emission = Emission(accountId: string, event: OrderEvent)

  /** What the strategies were told, the accounts they could look at, what they did, and the events that came of it. */
  datatype Heard = Heard(callback: Callback, accounts: map<string, Book>, actions: seq<Action>, events: seq<OrderEvent>)

  /** `events` wait to be dispatched. Two fields are kept beside the program's own state and read by nothing: `emitted`, all
      events in the order in which they arose, and `heard`, all callbacks. */
  datatype World<M> = World(
    accounts: map<string, Book>, roster: seq<string>, memory: M, queue: seq<OrderRequest>, events: seq<OrderEvent>,
    day: string, quotes: map<string, Quote>, timestamp: string, anyPending: bool,
    emitted: seq<Emission>, heard: seq<Heard>)

  function EmittedBy(emitted: seq<Emission>, id: string): seq<OrderEvent> {
    if emitted == [] then []
    else
      var last := emitted[|emitted| - 1];
      EmittedBy(emitted[..|emitted| - 1], id) + if last.accountId == id then [last.event] else []
  }

  function Noted(emitted: seq<Emission>, id: string, events: seq<OrderEvent>): seq<Emission> {
    emitted + seq(|events|, i requires 0 <= i < |events| => Emission(id, events[i]))
  }

  /** An account operation has run: the account changes, and its events wait and are noted. */
  function Operated<M>(w: World<M>, id: string, out: Result): World<M>
    requires WellFormed(out.account)
  {
    w.(accounts := w.accounts[id := out.account], events := w.events + out.events,
       emitted := Noted(w.emitted, id, out.events))
  }

  /** `send_order`: the identity is the context's, and orders without volume or instrument go nowhere. */
  function Normalized(accountId: string, strategyId: string, r: OrderRequest): OrderRequest {
    r.(accountId := if r.accountId == "" then accountId else r.accountId, strategyId := strategyId)
  }

  function Act<M>(w: World<M>, action: Action): World<M> {
    match action
    case Send(account, strategy, request) =>
      if request.volume <= 0 || request.instrument == "" then w
      else w.(queue := w.queue + [Normalized(account, strategy, request)])
    case Withdraw(account, strategy, client) =>
      if client == "" || account !in w.accounts then w
      else
        Operated(w, account, Cancel(w.accounts[account], strategy, client, w.timestamp))
  }

  function ActAll<M>(w: World<M>, actions: seq<Action>): (next: World<M>)
    ensures w.events <= next.events
    decreases |actions|
  {
    if actions == [] then w else ActAll(Act(w, actions[0]), actions[1..])
  }

  function Tell<M>(host: Host<M>, w: World<M>, c: Callback): World<M> {
    var reaction := host.react(w.memory, c, w.accounts);
    var acted := ActAll(w.(memory := reaction.memory), reaction.actions);
    acted.(heard := acted.heard + [Heard(c, w.accounts, reaction.actions, acted.events[|w.events|..])])
  }

  /** The owner of the event, and its position, are known. */
  predicate PositionKnown(accounts: map<string, Book>, e: OrderEvent) {
    e.accountId in accounts && e.strategyId in accounts[e.accountId].attachments
    && e.instrument in accounts[e.accountId].attachments[e.strategyId].positions
  }

  /** Tell the strategies about the events, with positions after fills when `withPositions`. */
  function TellEvents<M>(host: Host<M>, w: World<M>, events: seq<OrderEvent>, withPositions: bool): World<M>
    decreases |events|
  {
    if events == [] then w
    else
      var told := Tell(host, w, OnOrder(events[0]));
      var both := if withPositions && IsTradeFill(events[0]) && PositionKnown(told.accounts, events[0])
                  then Tell(host, told, OnPosition(events[0])) else told;
      TellEvents(host, both, events[1..], withPositions)
  }

  predicate Idle(a: Attachment) {
    a.scheduled == [] && a.pending == []
  }

  predicate AllIdle(a: Account) {
    forall n :: n in a.attachments ==> Idle(a.attachments[n])
  }

  predicate NothingPending(accounts: map<string, Book>) {
    forall id :: id in accounts ==> AllIdle(accounts[id])
  }

  /** Dispatch the events at hand, drop them with those added meanwhile, and look at the books again. */
  function Drain<M>(host: Host<M>, w: World<M>, withPositions: bool): World<M> {
    if w.events == [] then w
    else
      var told := TellEvents(host, w, w.events, withPositions);
      told.(events := [], anyPending := !NothingPending(told.accounts))
  }

  function ActivateBooks(accounts: map<string, Book>, tick: MarketTick): map<string, Book> {
    map id | id in accounts :: Activate(accounts[id], tick)
  }

  function RollBooks(accounts: map<string, Book>): map<string, Book> {
    map id | id in accounts :: RollAccount(accounts[id])
  }

  /** Serve the accounts in turn. */
  function ServeBooks<M>(w: World<M>, ids: seq<string>, m: Market): World<M>
    decreases |ids|
  {
    if ids == [] then w
    else if ids[0] !in w.accounts then ServeBooks(w, ids[1..], m)
    else
      ServeBooks(Operated(w, ids[0], Service(w.accounts[ids[0]], m)), ids[1..], m)
  }

  function ServiceTick<M>(w: World<M>, m: Market): World<M> {
    ServeBooks(w.(accounts := ActivateBooks(w.accounts, m.tick)), w.roster, m)
  }

  function SubmitQueued<M>(w: World<M>, requests: seq<OrderRequest>, m: Market): World<M>
    decreases |requests|
  {
    if requests == [] then w
    else
      var r := requests[0];
      var next :=
        if r.accountId !in w.accounts then
          var e := MakeEvent(r, "unknown", Rejected, 0, 0.0, m.tick.timestamp);
          w.(events := w.events + [e], emitted := Noted(w.emitted, r.accountId, [e]))
        else Operated(w, r.accountId, Submit(w.accounts[r.accountId], r, m));
      SubmitQueued(next, requests[1..], m)
  }

  predicate DayChanged<M>(host: Host<M>, w: World<M>, tick: MarketTick) {
    host.dayOf(tick) != "" && w.day != "" && host.dayOf(tick) != w.day
  }

  /** Everything up to the service point. */
  function OpenTick<M>(host: Host<M>, w: World<M>, tick: MarketTick): World<M> {
    var stamped := w.(timestamp := tick.timestamp);
    if DayChanged(host, w, tick) then
      var rolled := Tell(host, stamped.(accounts := RollBooks(w.accounts)), OnPositions);
      var ticked := Tell(host, rolled.(day := host.dayOf(tick)), OnTick(tick));
      Drain(host, ticked, false)
    else stamped.(day := if host.dayOf(tick) == "" then w.day else host.dayOf(tick))
  }

  /** Everything after it. */
  function CloseTick<M>(host: Host<M>, w: World<M>, told: bool, m: Market): World<M> {
    var drained := Drain(host, w, true);
    var ticked := if told then drained else Tell(host, drained, OnTick(m.tick));
    var submitted :=
      if ticked.queue == [] then ticked
      else
        var sent := SubmitQueued(ticked.(queue := []), ticked.queue, m);
        var settled := if sent.events == [] then sent else TellEvents(host, sent, sent.events, true).(events := []);
        settled.(anyPending := !NothingPending(settled.accounts));
    submitted.(quotes := submitted.quotes[m.tick.instrument := QuoteOf(m.tick)])
  }

  function MarketOf<M>(w: World<M>, tick: MarketTick): Market {
    Market.Market(tick, if tick.instrument in w.quotes then Some(w.quotes[tick.instrument]) else None)
  }

  /** The reference: every tick activates and serves. */
  function ProcessTick<M>(host: Host<M>, w: World<M>, tick: MarketTick): World<M> {
    CloseTick(host, ServiceTick(OpenTick(host, w, tick), MarketOf(w, tick)), DayChanged(host, w, tick), MarketOf(w, tick))
  }

  /** The fast form: activate and serve only when the flag says so. */
  function ProcessTickFast<M>(host: Host<M>, w: World<M>, tick: MarketTick): World<M> {
    var open := OpenTick(host, w, tick);
    CloseTick(host, if open.anyPending then ServiceTick(open, MarketOf(w, tick)) else open,
              DayChanged(host, w, tick), MarketOf(w, tick))
  }

  function ReplayTicks<M>(host: Host<M>, w: World<M>, ticks: seq<MarketTick>): World<M> {
    if ticks == [] then w
    else ProcessTick(host, ReplayTicks(host, w, ticks[..|ticks| - 1]), ticks[|ticks| - 1])
  }

  function ReplayTicksFast<M>(host: Host<M>, w: World<M>, ticks: seq<MarketTick>): World<M> {
    if ticks == [] then w
    else ProcessTickFast(host, ReplayTicksFast(host, w, ticks[..|ticks| - 1]), ticks[|ticks| - 1])
  }

  /** A live order raises the flag. */
  predicate FlagCovers<M>(w: World<M>) {
    w.anyPending || NothingPending(w.accounts)
  }

  // ---- Strategies only ever remove live orders ----

  /** Cancelling removes at most the order it names. */
  lemma CancelKeepsIdle(a: Account, strategyId: string, clientOrderId: string, timestamp: string)
    requires AllIdle(a)
    ensures AllIdle(Cancel(a, strategyId, clientOrderId, timestamp).account)
  {
  }

  lemma {:induction false} ActAllKeepsFlag<M>(w: World<M>, actions: seq<Action>)
    ensures ActAll(w, actions).anyPending == w.anyPending
    ensures NothingPending(w.accounts) ==> NothingPending(ActAll(w, actions).accounts)
    ensures ActAll(w, actions).quotes == w.quotes && ActAll(w, actions).day == w.day
    decreases |actions|
  {
    hide Cancel, AllIdle;
    if actions != [] {
      var a := actions[0];
      if a.Withdraw? && a.accountId in w.accounts && NothingPending(w.accounts) {
        CancelKeepsIdle(w.accounts[a.accountId], a.strategyId, a.clientOrderId, w.timestamp);
      }
      ActAllKeepsFlag(Act(w, a), actions[1..]);
    }
  }

  lemma TellKeepsFlag<M>(host: Host<M>, w: World<M>, c: Callback)
    ensures var told := Tell(host, w, c);
      && told.anyPending == w.anyPending && told.quotes == w.quotes
      && (NothingPending(w.accounts) ==> NothingPending(told.accounts))
  {
    var reaction := host.react(w.memory, c, w.accounts);
    ActAllKeepsFlag(w.(memory := reaction.memory), reaction.actions);
  }

  lemma RollAccountKeepsIdle(a: Book)
    ensures AllIdle(RollAccount(a)) <==> AllIdle(a)
  {
    hide PnlOver, NetPositions, Roll;
    var b := RollAccount(a);
    forall n | n in a.attachments ensures Idle(b.attachments[n]) <==> Idle(a.attachments[n]) {
      assert b.attachments[n] == RollAttachment(a.attachments[n]);
    }
  }

  lemma RollKeepsIdle(accounts: map<string, Book>)
    requires NothingPending(accounts)
    ensures NothingPending(RollBooks(accounts))
  {
    hide RollAccount, AllIdle;
    forall id | id in accounts ensures AllIdle(RollAccount(accounts[id])) {
      RollAccountKeepsIdle(accounts[id]);
    }
  }

  lemma DrainCovers<M>(host: Host<M>, w: World<M>, withPositions: bool)
    requires FlagCovers(w)
    ensures FlagCovers(Drain(host, w, withPositions))
  {
  }

  /** The flag covers the live orders at the service point... */
  lemma OpenTickCovers<M>(host: Host<M>, w: World<M>, tick: MarketTick)
    requires FlagCovers(w)
    ensures FlagCovers(OpenTick(host, w, tick))
  {
    hide Tell, Drain, NothingPending, RollBooks;
    if DayChanged(host, w, tick) {
      var stamped := w.(timestamp := tick.timestamp);
      if NothingPending(w.accounts) {
        RollKeepsIdle(w.accounts);
      }
      TellKeepsFlag(host, stamped.(accounts := RollBooks(w.accounts)), OnPositions);
      var rolled := Tell(host, stamped.(accounts := RollBooks(w.accounts)), OnPositions);
      TellKeepsFlag(host, rolled.(day := host.dayOf(tick)), OnTick(tick));
      DrainCovers(host, Tell(host, rolled.(day := host.dayOf(tick)), OnTick(tick)), false);
    }
  }

  /** ... and again when the tick is done. */
  lemma CloseTickCovers<M>(host: Host<M>, w: World<M>, told: bool, m: Market)
    requires FlagCovers(w)
    ensures FlagCovers(CloseTick(host, w, told, m))
  {
    hide Tell, Drain, NothingPending, SubmitQueued, TellEvents;
    var drained := Drain(host, w, true);
    DrainCovers(host, w, true);
    TellKeepsFlag(host, drained, OnTick(m.tick));
  }

  // ---- Serving idle books does nothing ----

  lemma IdleAttachment(a: Attachment, m: Market)
    requires Idle(a)
    ensures ActivateIn(a, m.tick) == a && ServiceAttachment(a, m) == Outcome(a, [])
  {
  }

  lemma {:induction false} IdleService(a: Account, names: seq<string>, m: Market)
    requires WellFormed(a) && AllIdle(a) && Lists(a.attachments, names)
    ensures ServiceOver(a, names, m) == Result(a, [])
  {
    hide ServiceAttachment;
    if names != [] {
      var name := names[|names| - 1];
      IdleService(a, names[..|names| - 1], m);
      IdleAttachment(a.attachments[name], m);
      assert a.attachments[name := a.attachments[name]] == a.attachments;
    }
  }

  lemma IdleActivate(a: Account, m: Market)
    requires AllIdle(a)
    ensures Activate(a, m.tick) == a
  {
    hide ActivateIn;
    forall n | n in a.attachments ensures ActivateIn(a.attachments[n], m.tick) == a.attachments[n] {
      IdleAttachment(a.attachments[n], m);
    }
    assert (map n | n in a.attachments :: ActivateIn(a.attachments[n], m.tick)) == a.attachments;
  }

  lemma {:induction false} IdleServe<M>(w: World<M>, ids: seq<string>, m: Market)
    requires NothingPending(w.accounts)
    ensures ServeBooks(w, ids, m) == w
    decreases |ids|
  {
    hide ServiceOver, AllIdle;
    if ids != [] {
      if ids[0] in w.accounts {
        IdleService(w.accounts[ids[0]], w.accounts[ids[0]].roster, m);
        assert w.accounts[ids[0] := w.accounts[ids[0]]] == w.accounts && w.events + [] == w.events;
        assert Noted(w.emitted, ids[0], []) == w.emitted;
      }
      IdleServe(w, ids[1..], m);
    }
  }

  lemma IdleServiceTick<M>(w: World<M>, m: Market)
    requires NothingPending(w.accounts)
    ensures ServiceTick(w, m) == w
  {
    hide AllIdle, Activate;
    forall id | id in w.accounts ensures Activate(w.accounts[id], m.tick) == w.accounts[id] {
      IdleActivate(w.accounts[id], m);
    }
    assert ActivateBooks(w.accounts, m.tick) == w.accounts;
    IdleServe(w, w.roster, m);
  }

  // ---- The fast path is sound ----

  lemma ServiceKeepsFlag<M>(w: World<M>, ids: seq<string>, m: Market)
    ensures ServeBooks(w, ids, m).anyPending == w.anyPending
    decreases |ids|
  {
    hide Service;
  }

  /** One tick: the fast form computes the same world, and leaves the flag covering it. */
  lemma FastTickIsSound<M>(host: Host<M>, w: World<M>, tick: MarketTick)
    requires FlagCovers(w)
    ensures ProcessTickFast(host, w, tick) == ProcessTick(host, w, tick)
    ensures FlagCovers(ProcessTick(host, w, tick))
  {
    hide OpenTick, CloseTick, ServeBooks, NothingPending, ActivateBooks;
    var open, m := OpenTick(host, w, tick), MarketOf(w, tick);
    OpenTickCovers(host, w, tick);
    if !open.anyPending {
      IdleServiceTick(open, m);
    }
    ServiceKeepsFlag(open.(accounts := ActivateBooks(open.accounts, tick)), open.roster, m);
    CloseTickCovers(host, ServiceTick(open, m), DayChanged(host, w, tick), m);
  }

  /** Whole replays: for all strategies and ticks, the fast form goes through the same worlds, tick by tick. */
  lemma {:induction false} FastReplayIsSound<M>(host: Host<M>, w: World<M>, ticks: seq<MarketTick>)
    requires FlagCovers(w)
    ensures ReplayTicksFast(host, w, ticks) == ReplayTicks(host, w, ticks)
    ensures FlagCovers(ReplayTicks(host, w, ticks))
    decreases |ticks|
  {
    hide ProcessTick, ProcessTickFast, NothingPending;
    if ticks != [] {
      FastReplayIsSound(host, w, ticks[..|ticks| - 1]);
      FastTickIsSound(host, ReplayTicks(host, w, ticks[..|ticks| - 1]), ticks[|ticks| - 1]);
    }
  }

  // ---- The loop as the runtime runs it ----

  class TickLoop<M> {
    const host: Host<M>
    const roster: seq<string>
    var accounts: map<string, Book>
    var memory: M
    var queue: seq<OrderRequest>
    var events: seq<OrderEvent>
    var day: string
    var quotes: map<string, Quote>
    var timestamp: string
    var anyPending: bool
    var emitted: seq<Emission>
    var heard: seq<Heard>

    constructor (host: Host<M>, w: World<M>)
      ensures Value() == w && this.host == host
    {
      this.host, roster, accounts, memory := host, w.roster, w.accounts, w.memory;
      queue, events, day, quotes := w.queue, w.events, w.day, w.quotes;
      timestamp, anyPending, emitted, heard := w.timestamp, w.anyPending, w.emitted, w.heard;
    }

    function Value(): World<M>
      reads this
    {
      World(accounts, roster, memory, queue, events, day, quotes, timestamp, anyPending, emitted, heard)
    }

    /** What strategies do in a callback is carried out action by action. */
    method Perform(actions: seq<Action>)
      modifies this
      ensures Value() == ActAll(old(Value()), actions)
    {
      hide Act;
      var i := 0;
      ghost var start := Value();
      while i < |actions|
        invariant 0 <= i <= |actions| && ActAll(Value(), actions[i..]) == ActAll(start, actions)
      {
        var next := Act(Value(), actions[i]);
        ActKeepsRest(Value(), actions[i]);
        assert actions[i..][1..] == actions[i + 1..];
        accounts, queue, events, emitted := next.accounts, next.queue, next.events, next.emitted;
        i := i + 1;
      }
    }

    method Notify(c: Callback)
      modifies this
      ensures Value() == Tell(host, old(Value()), c)
    {
      hide ActAll;
      var reaction, seen, waiting := host.react(memory, c, accounts), accounts, |events|;
      memory := reaction.memory;
      Perform(reaction.actions);
      heard := heard + [Heard(c, seen, reaction.actions, events[waiting..])];
    }

    method Dispatch(batch: seq<OrderEvent>, withPositions: bool)
      modifies this
      ensures Value() == TellEvents(host, old(Value()), batch, withPositions)
    {
      hide Tell;
      ghost var start := Value();
      var i := 0;
      while i < |batch|
        invariant 0 <= i <= |batch|
        invariant TellEvents(host, Value(), batch[i..], withPositions) == TellEvents(host, start, batch, withPositions)
      {
        assert batch[i..][1..] == batch[i + 1..];
        Notify(OnOrder(batch[i]));
        if withPositions && IsTradeFill(batch[i]) && PositionKnown(accounts, batch[i]) {
          Notify(OnPosition(batch[i]));
        }
        i := i + 1;
      }
    }

    method DispatchEvents(withPositions: bool)
      modifies this
      ensures Value() == Drain(host, old(Value()), withPositions)
    {
      hide TellEvents, NothingPending;
      if events != [] {
        Dispatch(events, withPositions);
        events := [];
        anyPending := !NothingPending(accounts);
      }
    }

    method ServeAccounts(m: Market)
      modifies this
      ensures Value() == ServiceTick(old(Value()), m)
    {
      hide Service, ActivateBooks;
      accounts := ActivateBooks(accounts, m.tick);
      ghost var start := Value();
      var i := 0;
      while i < |roster|
        invariant 0 <= i <= |roster|
        invariant ServeBooks(Value(), roster[i..], m) == ServeBooks(start, roster, m)
      {
        assert roster[i..][1..] == roster[i + 1..];
        if roster[i] in accounts {
          var out := Service(accounts[roster[i]], m);
          accounts, events := accounts[roster[i] := out.account], events + out.events;
          emitted := Noted(emitted, roster[i], out.events);
        }
        i := i + 1;
      }
    }

    method SubmitQueue(requests: seq<OrderRequest>, m: Market)
      modifies this
      ensures Value() == SubmitQueued(old(Value()), requests, m)
    {
      hide Submit, MakeEvent;
      ghost var start := Value();
      var i := 0;
      while i < |requests|
        invariant 0 <= i <= |requests|
        invariant SubmitQueued(Value(), requests[i..], m) == SubmitQueued(start, requests, m)
      {
        assert requests[i..][1..] == requests[i + 1..];
        var r := requests[i];
        if r.accountId !in accounts {
          var e := MakeEvent(r, "unknown", Rejected, 0, 0.0, m.tick.timestamp);
          events, emitted := events + [e], Noted(emitted, r.accountId, [e]);
        } else {
          var out := Submit(accounts[r.accountId], r, m);
          accounts, events := accounts[r.accountId := out.account], events + out.events;
          emitted := Noted(emitted, r.accountId, out.events);
        }
        i := i + 1;
      }
    }

    /** Roll into a new trading day, if this tick starts one. */
    method Open(tick: MarketTick) returns (changed: bool)
      modifies this
      ensures Value() == OpenTick(host, old(Value()), tick) && changed == DayChanged(host, old(Value()), tick)
    {
      hide Tell, Drain, RollBooks;
      var next := host.dayOf(tick);
      changed := next != "" && day != "" && next != day;
      timestamp := tick.timestamp;
      if changed {
        accounts := RollBooks(accounts);
        TellKeepsDay(host, Value(), OnPositions);
        Notify(OnPositions);
      }
      if next != "" {
        day := next;
      }
      if changed {
        Notify(OnTick(tick));
        DispatchEvents(false);
      }
    }

    /** Dispatch what service produced, tell the strategies about the tick, and submit what they queued. */
    method Close(told: bool, m: Market)
      modifies this
      ensures Value() == CloseTick(host, old(Value()), told, m)
    {
      hide Tell, TellEvents, Drain, SubmitQueued, NothingPending;
      DispatchEvents(true);
      if !told {
        Notify(OnTick(m.tick));
      }
      if queue != [] {
        var requests := queue;
        queue := [];
        SubmitQueue(requests, m);
        if events != [] {
          Dispatch(events, true);
          events := [];
        }
        anyPending := !NothingPending(accounts);
      }
      quotes := quotes[m.tick.instrument := QuoteOf(m.tick)];
    }

    /** One tick, with the flag deciding whether the books are looked at; the contract is that of looking always. */
    method Step(tick: MarketTick)
      requires FlagCovers(Value())
      modifies this
      ensures Value() == ProcessTick(host, old(Value()), tick) && FlagCovers(Value())
    {
      hide OpenTick, CloseTick, ServiceTick, NothingPending, FlagCovers;
      FastTickIsSound(host, Value(), tick);
      var m := MarketOf(Value(), tick);
      var changed := Open(tick);
      if anyPending {
        ServeAccounts(m);
      }
      Close(changed, m);
    }
  }

  lemma ActKeepsRest<M>(w: World<M>, action: Action)
    ensures var next := Act(w, action);
      && next == w.(accounts := next.accounts, queue := next.queue, events := next.events, emitted := next.emitted)
      && w.events <= next.events
  {
    hide Cancel;
  }

  lemma TellKeepsDay<M>(host: Host<M>, w: World<M>, c: Callback)
    ensures Tell(host, w, c).day == w.day
  {
    var reaction := host.react(w.memory, c, w.accounts);
    ActAllKeepsFlag(w.(memory := reaction.memory), reaction.actions);
  }
}
