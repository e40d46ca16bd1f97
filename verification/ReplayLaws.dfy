/** What a replay does, told from outside: what the strategies hear and when, which steps each account takes, on which
    markets and days, and so what the accounts keep. */
module ReplayLaws {
  import opened Numeric
  import opened Domain
  import opened TradeFlow
  import opened Matcher
  import opened Backtest
  import opened BacktestBooks
  import opened BacktestAccount
  import opened BacktestRuns
  import opened BacktestDays
  import opened Replay
  import opened ReplayRuns

  // ---- One tick ----

  /** A quote as the tick shows it. */
  function ShownBy(t: MarketTick): Quote {
    Quote.Quote(t.last, t.bid, t.ask, t.volume, t.turnover, t.bidSize, t.askSize)
  }

  /** A named day follows another one. */
  predicate NewDay(next: string, day: string) {
    next != "" && day != "" && next != day
  }

  function DayOn(next: string, day: string): string {
    if next == "" then day else next
  }

  function MarketAt(quotes: map<string, Quote>, t: MarketTick): Market {
    Market.Market(t, if t.instrument in quotes then Some(quotes[t.instrument]) else None)
  }

  /** What is heard in a tick: before service if it starts a day, after service, and after submission. */
  datatype Parts = Parts(opening: seq<Heard>, reacting: seq<Heard>, settling: seq<Heard>)
  {
    function All(): seq<Heard> { opening + reacting + settling }
  }

  predicate OnlyEvents(heard: seq<Heard>) {
    forall h :: h in heard ==> h.callback.OnOrder? || h.callback.OnPosition?
  }

  predicate BooksNextDay(was: map<string, Book>, now: map<string, Book>) {
    && now.Keys == was.Keys
    && forall id :: id in was ==>
         && now[id].attachments.Keys == was[id].attachments.Keys
         && forall n :: n in was[id].attachments ==> NextDay(was[id].attachments[n], now[id].attachments[n])
  }

  /** A new day is told first, with all positions a day older, and then the tick; otherwise nothing is told before service. */
  predicate OpensInOrder(was: map<string, Book>, t: MarketTick, changed: bool, heard: seq<Heard>) {
    if changed then
      && |heard| >= 2 && heard[0].callback == OnPositions && BooksNextDay(was, heard[0].accounts)
      && heard[1].callback == OnTick(t) && OnlyEvents(heard[2..])
    else heard == []
  }

  /** After service events are told, and then the tick unless it was. */
  predicate ReactsInOrder(t: MarketTick, told: bool, heard: seq<Heard>) {
    if told then OnlyEvents(heard)
    else heard != [] && heard[|heard| - 1].callback == OnTick(t) && OnlyEvents(heard[..|heard| - 1])
  }

  predicate InOrder(was: map<string, Book>, t: MarketTick, changed: bool, p: Parts) {
    OpensInOrder(was, t, changed, p.opening) && ReactsInOrder(t, changed, p.reacting) && OnlyEvents(p.settling)
  }

  function Turns(roster: seq<string>, id: string): nat {
    if roster == [] then 0 else (if roster[0] == id then 1 else 0) + Turns(roster[1..], id)
  }

  function Services(n: nat, m: Market): seq<Step> {
    seq(n, _ => ServiceStep(m))
  }

  function SubmitSteps(queue: seq<OrderRequest>, id: string, m: Market): seq<Step> {
    if queue == [] then []
    else SubmitSteps(queue[..|queue| - 1], id, m)
         + if queue[|queue| - 1].accountId == id then [SubmitStep(queue[|queue| - 1], m)] else []
  }

  /** What a tick does to an account before its events are told: the day roll if a day starts, with the cancels that follow
      it; then activation, and service as often as the roster names the account. */
  function ServedSteps(p: Parts, roster: seq<string>, id: string, changed: bool, m: Market): seq<Step> {
    (if changed then [RollStep] + Reacted(p.opening, id, m.tick.timestamp) else [])
    + [ActivateStep(m.tick)] + Services(Turns(roster, id), m)
  }

  /** And then: the cancels that follow, the queued orders, and the cancels that follow these. */
  function TickSteps(p: Parts, roster: seq<string>, id: string, changed: bool, m: Market, queue: seq<OrderRequest>)
    : seq<Step>
  {
    ServedSteps(p, roster, id, changed, m) + Reacted(p.reacting, id, m.tick.timestamp) + SubmitSteps(queue, id, m)
    + Reacted(p.settling, id, m.tick.timestamp)
  }

  /** After service the strategies look at accounts that have been served. */
  ghost predicate SeenServed<M>(w: World<M>, p: Parts, changed: bool, m: Market) {
    forall k, id :: 0 <= k < |p.reacting| && id in w.accounts ==>
      && id in p.reacting[k].accounts
      && p.reacting[k].accounts[id]
         == Run(w.accounts[id], ServedSteps(p, w.roster, id, changed, m)
                                + Reacted(p.reacting[..k], id, m.tick.timestamp)).account
  }

  // ---- The part before service ----

  lemma RollingMoves<M>(w: World<M>, id: string)
    requires id in w.accounts
    ensures Moves(w, w.(accounts := RollBooks(w.accounts)), id, [RollStep])
    ensures BooksNextDay(w.accounts, RollBooks(w.accounts))
  {
    hide RollAccount, EmittedBy;
    RunOne(w.accounts[id], RollStep);
    RollEmitsNothing(w.accounts[id]);
    assert EmittedBy(w.emitted, id) + [] == EmittedBy(w.emitted, id);
    RollingIsNextDay(w.accounts);
  }

  lemma RollingIsNextDay(books: map<string, Book>)
    ensures BooksNextDay(books, RollBooks(books)) && RollBooks(books).Keys == books.Keys
  {
    hide RollAccount, NextDay;
    forall id | id in books
      ensures RollBooks(books)[id].attachments.Keys == books[id].attachments.Keys
      ensures forall n :: n in books[id].attachments ==>
        NextDay(books[id].attachments[n], RollBooks(books)[id].attachments[n]) {
      AccountRollIsNextDay(books[id]);
    }
  }

  lemma EventsOnly(heard: seq<Heard>, events: seq<OrderEvent>, withPositions: bool)
    requires Dispatches(heard, events, withPositions)
    ensures OnlyEvents(heard)
    decreases |events|
  {
    hide PositionKnown;
    if events != [] {
      if withPositions && IsTradeFill(events[0]) && PositionKnown(heard[0].accounts, events[0]) {
        EventsOnly(heard[2..], events[1..], withPositions);
        assert heard == [heard[0]] + [heard[1]] + heard[2..];
      } else {
        EventsOnly(heard[1..], events[1..], withPositions);
        assert heard == [heard[0]] + heard[1..];
      }
    }
  }

  /** The rolled world, from which a new day is told. */
  function Turned<M>(w: World<M>, t: MarketTick): World<M> {
    w.(timestamp := t.timestamp, accounts := RollBooks(w.accounts))
  }

  lemma OpeningHeard<M>(host: Host<M>, w: World<M>, t: MarketTick) returns (heard: seq<Heard>)
    requires NewDay(host.dayOf(t), w.day)
    ensures var next := OpenTick(host, w, t);
      && Reacting(host, Turned(w, t), next, heard) && next.day == host.dayOf(t) && next.events == []
    ensures |heard| >= 2 && heard[0].callback == OnPositions && heard[0].accounts == RollBooks(w.accounts)
    ensures heard[1].callback == OnTick(t) && OnlyEvents(heard[2..])
  {
    hide Reacting, Tell, Drain, RollBooks, Dispatches, OnlyEvents;
    var rolled := Turned(w, t);
    var first := Tell(host, rolled, OnPositions);
    var named := first.(day := host.dayOf(t));
    var second := Tell(host, named, OnTick(t));
    var a := TellReacts(host, rolled, OnPositions);
    ReactingFrom(host, rolled, rolled, first, named, [a]);
    var b := TellReacts(host, named, OnTick(t));
    ReactingOn(host, rolled, named, second, [a], [b]);
    var rest := DrainReacts(host, second, false);
    ReactingOn(host, rolled, second, Drain(host, second, false), [a] + [b], rest);
    EventsOnly(rest, second.events, false);
    heard := [a] + [b] + rest;
    assert heard[0] == a && heard[1] == b && heard[2..] == rest;
  }

  // ---- Service and submission ----

  lemma ActivatingMoves<M>(w: World<M>, t: MarketTick, id: string)
    requires id in w.accounts
    ensures Moves(w, w.(accounts := ActivateBooks(w.accounts, t)), id, [ActivateStep(t)])
  {
    hide Activate, EmittedBy;
    RunOne(w.accounts[id], ActivateStep(t));
    assert EmittedBy(w.emitted, id) + [] == EmittedBy(w.emitted, id);
  }

  /** Accounts and their events apart, nothing changes. */
  ghost predicate Aside<M>(w: World<M>, next: World<M>) {
    && next == w.(accounts := next.accounts, events := next.events, emitted := next.emitted)
    && next.accounts.Keys == w.accounts.Keys
  }

  lemma {:induction false} ServingMoves<M>(w: World<M>, ids: seq<string>, m: Market, id: string)
    requires id in w.accounts
    ensures Moves(w, ServeBooks(w, ids, m), id, Services(Turns(ids, id), m))
    decreases |ids|
  {
    hide Service, Moves, Noted;
    if ids == [] {
      SameBooks(w, w, id);
    } else if ids[0] !in w.accounts {
      ServingMoves(w, ids[1..], m, id);
    } else {
      var s := ServiceStep(m);
      assert Apply(w.accounts[ids[0]], s) == Service(w.accounts[ids[0]], m);
      var next := Operated(w, ids[0], Service(w.accounts[ids[0]], m));
      OneOperates(w, ids[0], s, id);
      ServingMoves(next, ids[1..], m, id);
      MovesOn(w, next, ServeBooks(next, ids[1..], m), id, if id == ids[0] then [s] else [], Services(Turns(ids[1..], id), m));
      assert Services(Turns(ids, id), m) == (if id == ids[0] then [s] else []) + Services(Turns(ids[1..], id), m);
    }
  }

  lemma {:induction false} SubmitStepsFromFront(queue: seq<OrderRequest>, id: string, m: Market)
    requires queue != []
    ensures SubmitSteps(queue, id, m)
         == (if queue[0].accountId == id then [SubmitStep(queue[0], m)] else []) + SubmitSteps(queue[1..], id, m)
    decreases |queue|
  {
    var front := queue[..|queue| - 1];
    if front == [] {
      assert queue[1..] == [];
    } else {
      SubmitStepsFromFront(front, id, m);
      assert front[1..] == queue[1..][..|queue| - 2] && front[0] == queue[0];
    }
  }

  lemma {:induction false} SubmittingMoves<M>(w: World<M>, requests: seq<OrderRequest>, m: Market, id: string)
    requires id in w.accounts
    ensures Moves(w, SubmitQueued(w, requests, m), id, SubmitSteps(requests, id, m))
    decreases |requests|
  {
    hide Submit, Moves, Noted, MakeEvent, SubmitSteps;
    if requests == [] {
      SameBooks(w, w, id);
      NoSubmitSteps(id, m);
    } else {
      var r, rest := requests[0], requests[1..];
      var s, mine := SubmitStep(r, m), if r.accountId == id then [SubmitStep(r, m)] else [];
      SubmitStepsFromFront(requests, id, m);
      if r.accountId !in w.accounts {
        var e := MakeEvent(r, "unknown", Rejected, 0, 0.0, m.tick.timestamp);
        var next := w.(events := w.events + [e], emitted := Noted(w.emitted, r.accountId, [e]));
        UnknownMoves(w, r.accountId, e, id);
        SubmittingMoves(next, rest, m, id);
        MovesOn(w, next, SubmitQueued(next, rest, m), id, [], SubmitSteps(rest, id, m));
      } else {
        assert Apply(w.accounts[r.accountId], s) == Submit(w.accounts[r.accountId], r, m);
        var next := Operated(w, r.accountId, Submit(w.accounts[r.accountId], r, m));
        OneOperates(w, r.accountId, s, id);
        SubmittingMoves(next, rest, m, id);
        MovesOn(w, next, SubmitQueued(next, rest, m), id, mine, SubmitSteps(rest, id, m));
      }
    }
  }

  lemma NoSubmitSteps(id: string, m: Market)
    ensures SubmitSteps([], id, m) == []
  {
  }

  lemma UnknownMoves<M>(w: World<M>, unknown: string, e: OrderEvent, id: string)
    requires id in w.accounts && unknown !in w.accounts
    ensures Moves(w, w.(events := w.events + [e], emitted := Noted(w.emitted, unknown, [e])), id, [])
  {
    hide EmittedBy, Noted, Run;
    NotedFor(w.emitted, unknown, [e], id);
    assert EmittedBy(w.emitted, id) + [] == EmittedBy(w.emitted, id);
    Stays(w, w.(events := w.events + [e], emitted := Noted(w.emitted, unknown, [e])), id);
  }

  // ---- The tick law ----

  function OpeningSteps(opening: seq<Heard>, id: string, changed: bool, timestamp: string): seq<Step> {
    if changed then [RollStep] + Reacted(opening, id, timestamp) else []
  }

  /** Where the opening starts: the rolled world on a new day. */
  function Base<M>(w: World<M>, t: MarketTick, changed: bool): World<M> {
    if changed then Turned(w, t) else w.(timestamp := t.timestamp)
  }

  lemma OpeningLaw<M>(host: Host<M>, w: World<M>, t: MarketTick) returns (opening: seq<Heard>)
    ensures var next, changed := OpenTick(host, w, t), NewDay(host.dayOf(t), w.day);
      && Reacting(host, Base(w, t, changed), next, opening) && next.day == DayOn(host.dayOf(t), w.day)
      && OpensInOrder(w.accounts, t, changed, opening)
      && forall id :: id in w.accounts ==> Moves(w, next, id, OpeningSteps(opening, id, changed, t.timestamp))
  {
    hide Reacting, Tell, Drain, RollBooks, OnlyEvents, BooksNextDay, Moves;
    var next, changed := OpenTick(host, w, t), NewDay(host.dayOf(t), w.day);
    var base := Base(w, t, changed);
    RollingIsNextDay(w.accounts);
    if changed {
      opening := OpeningHeard(host, w, t);
    } else {
      opening := [];
      NothingHeard(host, base);
      ReactingFrom(host, base, base, base, next, []);
    }
    forall id | id in w.accounts ensures Moves(w, next, id, OpeningSteps(opening, id, changed, t.timestamp)) {
      ReactingMoves(host, base, next, opening, id);
      if changed {
        RollingMoves(w, id);
        SameBooksMove(w, w, w.(accounts := RollBooks(w.accounts)), base, id, [RollStep]);
        MovesOn(w, base, next, id, [RollStep], Reacted(opening, id, t.timestamp));
      } else {
        SameBooks(w, next, id);
      }
    }
  }

  lemma ReactingMoves<M>(host: Host<M>, w: World<M>, next: World<M>, heard: seq<Heard>, id: string)
    requires Reacting(host, w, next, heard) && id in w.accounts
    ensures Moves(w, next, id, Reacted(heard, id, w.timestamp))
  {
    hide Moves, Genuine, Sees, MemoryAfter, Sent, Raised, AllEvents, Reacted;
  }

  lemma ServingLaw<M>(w: World<M>, m: Market)
    ensures Aside(w, ServiceTick(w, m))
    ensures forall id :: id in w.accounts ==>
      Moves(w, ServiceTick(w, m), id, [ActivateStep(m.tick)] + Services(Turns(w.roster, id), m))
  {
    hide Moves, ActivateBooks, ServeBooks;
    var active := w.(accounts := ActivateBooks(w.accounts, m.tick));
    SameAccounts(w, m.tick);
    ServingIsAside(active, w.roster, m);
    forall id | id in w.accounts
      ensures Moves(w, ServiceTick(w, m), id, [ActivateStep(m.tick)] + Services(Turns(w.roster, id), m)) {
      ActivatingMoves(w, m.tick, id);
      ServingMoves(active, w.roster, m, id);
      MovesOn(w, active, ServiceTick(w, m), id, [ActivateStep(m.tick)], Services(Turns(w.roster, id), m));
    }
  }

  lemma SameAccounts<M>(w: World<M>, t: MarketTick)
    ensures ActivateBooks(w.accounts, t).Keys == w.accounts.Keys
  {
    hide Activate;
  }

  lemma {:induction false} ServingIsAside<M>(w: World<M>, ids: seq<string>, m: Market)
    ensures Aside(w, ServeBooks(w, ids, m))
    decreases |ids|
  {
    hide Service, Noted;
    if ids != [] {
      ServingIsAside(if ids[0] in w.accounts then Operated(w, ids[0], Service(w.accounts[ids[0]], m)) else w, ids[1..], m);
    }
  }

  /** After service: the reactions, what they queued is submitted, and the reactions to that. */
  ghost predicate Closing<M>(host: Host<M>, w: World<M>, next: World<M>, m: Market, reacting: seq<Heard>,
                             settling: seq<Heard>)
  {
    && next.roster == w.roster && next.timestamp == w.timestamp && next.day == w.day
    && next.accounts.Keys == w.accounts.Keys && next.quotes == w.quotes[m.tick.instrument := ShownBy(m.tick)]
    && next.heard == w.heard + (reacting + settling) && next.memory == MemoryAfter(host, w.memory, reacting + settling)
    && Genuine(host, w.memory, reacting + settling) && Sees(w, reacting) && next.queue == Sent(settling)
    && forall id :: id in w.accounts ==>
         Moves(w, next, id, Reacted(reacting, id, w.timestamp) + SubmitSteps(w.queue + Sent(reacting), id, m)
                            + Reacted(settling, id, w.timestamp))
  }

  lemma TellingTheTick<M>(host: Host<M>, w: World<M>, told: bool, t: MarketTick) returns (heard: seq<Heard>)
    ensures var drained := Drain(host, w, true);
      var next := if told then drained else Tell(host, drained, OnTick(t));
      Reacting(host, w, next, heard) && next.day == w.day && ReactsInOrder(t, told, heard)
  {
    hide Reacting, Tell, Drain, Dispatches, OnlyEvents;
    heard := DrainReacts(host, w, true);
    EventsOnly(heard, w.events, true);
    if !told {
      var drained := Drain(host, w, true);
      var h := TellReacts(host, drained, OnTick(t));
      ReactingOn(host, w, drained, Tell(host, drained, OnTick(t)), heard, [h]);
      OneMore(heard, h);
      heard := heard + [h];
    }
  }

  /** The queue is submitted and its events are told. */
  lemma Settling<M>(host: Host<M>, w: World<M>, m: Market) returns (heard: seq<Heard>)
    ensures var sent := SubmitQueued(w.(queue := []), w.queue, m);
      var settled := if sent.events == [] then sent else TellEvents(host, sent, sent.events, true).(events := []);
      Reacting(host, sent, settled, heard) && settled.day == w.day && OnlyEvents(heard)
  {
    hide Reacting, TellEvents, SubmitQueued, Dispatches, OnlyEvents;
    var sent := SubmitQueued(w.(queue := []), w.queue, m);
    SubmittingIsAside(w.(queue := []), w.queue, m);
    if sent.events == [] {
      heard := [];
      NothingHeard(host, sent);
      NoneDispatched([], true);
      EventsOnly([], [], true);
    } else {
      var told := TellEvents(host, sent, sent.events, true);
      heard := TellEventsReacts(host, sent, sent.events, true);
      ReactingFrom(host, sent, sent, told, told.(events := []), heard);
      EventsOnly(heard, sent.events, true);
    }
  }

  lemma {:induction false} SubmittingIsAside<M>(w: World<M>, requests: seq<OrderRequest>, m: Market)
    ensures Aside(w, SubmitQueued(w, requests, m))
    decreases |requests|
  {
    hide Submit, Noted, MakeEvent;
    if requests != [] {
      var r := requests[0];
      if r.accountId !in w.accounts {
        var e := MakeEvent(r, "unknown", Rejected, 0, 0.0, m.tick.timestamp);
        SubmittingIsAside(w.(events := w.events + [e], emitted := Noted(w.emitted, r.accountId, [e])), requests[1..], m);
      } else {
        SubmittingIsAside(Operated(w, r.accountId, Submit(w.accounts[r.accountId], r, m)), requests[1..], m);
      }
    }
  }

  lemma ClosingLaw<M>(host: Host<M>, w: World<M>, told: bool, m: Market) returns (reacting: seq<Heard>, settling: seq<Heard>)
    requires w.timestamp == m.tick.timestamp
    ensures Closing(host, w, CloseTick(host, w, told, m), m, reacting, settling)
    ensures ReactsInOrder(m.tick, told, reacting) && OnlyEvents(settling)
  {
    hide ReactsInOrder, Reacting, Drain, Tell, SubmitQueued, TellEvents, NothingPending, OnlyEvents;
    var drained := Drain(host, w, true);
    var ticked := if told then drained else Tell(host, drained, OnTick(m.tick));
    reacting := TellingTheTick(host, w, told, m.tick);
    KeepsQuotes(host, w, ticked, reacting);
    var next := CloseTick(host, w, told, m);
    if ticked.queue == [] {
      settling := [];
      NobodySettles(host, w, ticked, next, m, reacting);
      NoneDispatched([], true);
      EventsOnly([], [], true);
    } else {
      settling := Settling(host, ticked, m);
      var sent := SubmitQueued(ticked.(queue := []), ticked.queue, m);
      var settled := if sent.events == [] then sent else TellEvents(host, sent, sent.events, true).(events := []);
      SubmittingIsAside(ticked.(queue := []), ticked.queue, m);
      KeepsQuotes(host, sent, settled, settling);
      AllSettle(host, w, ticked, sent, settled, next, m, reacting, settling);
    }
  }

  lemma KeepsQuotes<M>(host: Host<M>, w: World<M>, next: World<M>, heard: seq<Heard>)
    requires Reacting(host, w, next, heard)
    ensures next.quotes == w.quotes
  {
  }

  lemma NobodySettles<M>(host: Host<M>, w: World<M>, ticked: World<M>, next: World<M>, m: Market, reacting: seq<Heard>)
    requires Reacting(host, w, ticked, reacting) && ticked.queue == [] && ticked.day == w.day
    requires next == ticked.(quotes := w.quotes[m.tick.instrument := ShownBy(m.tick)])
    ensures Closing(host, w, next, m, reacting, [])
  {
    hide Genuine, Sees, MemoryAfter, Moves, AllEvents, Raised, Sent, Reacted, SubmitSteps;
    NothingAdded(reacting);
    NothingIsSent();
    forall id | id in w.accounts
      ensures Moves(w, next, id, Reacted(reacting, id, w.timestamp) + SubmitSteps(w.queue + Sent(reacting), id, m)
                                 + Reacted([], id, w.timestamp)) {
      ReactingMoves(host, w, ticked, reacting, id);
      SameBooksMove(w, w, ticked, next, id, Reacted(reacting, id, w.timestamp));
      NoSubmitSteps(id, m);
      NothingReacted(id, w.timestamp);
      NothingAdded(Reacted(reacting, id, w.timestamp));
    }
  }

  lemma NothingIsSent()
    ensures Sent([]) == []
  {
  }

  lemma NothingReacted(id: string, timestamp: string)
    ensures Reacted([], id, timestamp) == []
  {
  }

  lemma AllSettle<M>(host: Host<M>, w: World<M>, ticked: World<M>, sent: World<M>, settled: World<M>, next: World<M>,
                     m: Market, reacting: seq<Heard>, settling: seq<Heard>)
    requires Reacting(host, w, ticked, reacting) && ticked.day == w.day
    requires sent == SubmitQueued(ticked.(queue := []), ticked.queue, m) && Aside(ticked.(queue := []), sent)
    requires Reacting(host, sent, settled, settling) && settled.day == w.day
    requires next == settled.(anyPending := next.anyPending, quotes := w.quotes[m.tick.instrument := ShownBy(m.tick)])
    ensures Closing(host, w, next, m, reacting, settling)
  {
    hide Genuine, Sees, MemoryAfter, Moves, AllEvents, Raised, Sent, Reacted, SubmitSteps, SubmitQueued, AllMove;
    MemoryConcat(host, w.memory, reacting, settling);
    GenuineConcat(host, w.memory, reacting, settling);
    Associates(w.heard, reacting, settling);
    forall id | id in w.accounts
      ensures Moves(w, next, id, Reacted(reacting, id, w.timestamp) + SubmitSteps(w.queue + Sent(reacting), id, m)
                                 + Reacted(settling, id, w.timestamp)) {
      var waiting := ticked.(queue := []);
      ReactingMoves(host, w, ticked, reacting, id);
      SameBooksMove(w, w, ticked, waiting, id, Reacted(reacting, id, w.timestamp));
      SubmittingMoves(waiting, ticked.queue, m, id);
      MovesOn(w, waiting, sent, id, Reacted(reacting, id, w.timestamp), SubmitSteps(ticked.queue, id, m));
      ReactingMoves(host, sent, settled, settling, id);
      SameBooksMove(sent, sent, settled, next, id, Reacted(settling, id, w.timestamp));
      MovesOn(w, sent, next, id, Reacted(reacting, id, w.timestamp) + SubmitSteps(ticked.queue, id, m),
              Reacted(settling, id, w.timestamp));
    }
  }

  /** Everything a tick does. */
  ghost predicate Ticks<M>(host: Host<M>, w: World<M>, next: World<M>, t: MarketTick, p: Parts) {
    var changed, m := NewDay(host.dayOf(t), w.day), MarketAt(w.quotes, t);
    && next.roster == w.roster && next.timestamp == t.timestamp && next.day == DayOn(host.dayOf(t), w.day)
    && next.accounts.Keys == w.accounts.Keys && next.quotes == w.quotes[t.instrument := ShownBy(t)]
    && next.heard == w.heard + p.All() && next.memory == MemoryAfter(host, w.memory, p.All())
    && Genuine(host, w.memory, p.All()) && InOrder(w.accounts, t, changed, p) && SeenServed(w, p, changed, m)
    && next.queue == Sent(p.settling)
    && forall id :: id in w.accounts ==>
         Moves(w, next, id, TickSteps(p, w.roster, id, changed, m, w.queue + Sent(p.opening) + Sent(p.reacting)))
  }

  /** The tick loop's law: what the strategies hear, in what order and looking at what; the steps every account takes, with
      the roll at most once and first, all matching on this tick and the last quote of its instrument, and every order sent
      submitted once; and the quote remembered. */
  lemma TickLaw<M>(host: Host<M>, w: World<M>, t: MarketTick) returns (p: Parts)
    ensures Ticks(host, w, ProcessTick(host, w, t), t, p)
  {
    hide Reacting, OpenTick, ServiceTick, CloseTick, Moves, OnlyEvents, OpensInOrder, ReactsInOrder, MemoryAfter, Sent,
      Genuine, Closing, Base, Ticks, Services, Turns;
    var m, changed := MarketAt(w.quotes, t), NewDay(host.dayOf(t), w.day);
    var open := OpenTick(host, w, t);
    var opening := OpeningLaw(host, w, t);
    ServingLaw(open, m);
    var served := ServiceTick(open, m);
    OpeningFrame(host, w, t, open, opening);
    var reacting, settling := ClosingLaw(host, served, changed, m);
    p := Parts(opening, reacting, settling);
    assert ProcessTick(host, w, t) == CloseTick(host, served, changed, m);
    PartsJoin(host, w, t, open, served, ProcessTick(host, w, t), p);
  }

  lemma OpeningFrame<M>(host: Host<M>, w: World<M>, t: MarketTick, open: World<M>, opening: seq<Heard>)
    requires Reacting(host, Base(w, t, NewDay(host.dayOf(t), w.day)), open, opening)
    ensures open.roster == w.roster && open.quotes == w.quotes && open.timestamp == t.timestamp
    ensures open.accounts.Keys == w.accounts.Keys && open.heard == w.heard + opening && open.queue == w.queue + Sent(opening)
    ensures open.memory == MemoryAfter(host, w.memory, opening) && Genuine(host, w.memory, opening)
  {
    hide Genuine, Sees, MemoryAfter, Sent, Raised, AllEvents, AllMove, RollBooks;
    RollingIsNextDay(w.accounts);
  }

  lemma PartsJoin<M>(host: Host<M>, w: World<M>, t: MarketTick, open: World<M>, served: World<M>, next: World<M>, p: Parts)
    requires var m, changed := MarketAt(w.quotes, t), NewDay(host.dayOf(t), w.day);
      && Aside(open, served) && Closing(host, served, next, m, p.reacting, p.settling)
      && (forall id :: id in w.accounts ==>
            && Moves(w, open, id, OpeningSteps(p.opening, id, changed, t.timestamp))
            && Moves(open, served, id, [ActivateStep(t)] + Services(Turns(w.roster, id), m)))
    requires open.roster == w.roster && open.quotes == w.quotes && open.timestamp == t.timestamp
    requires open.accounts.Keys == w.accounts.Keys && open.heard == w.heard + p.opening
    requires open.queue == w.queue + Sent(p.opening) && open.day == DayOn(host.dayOf(t), w.day)
    requires InOrder(w.accounts, t, NewDay(host.dayOf(t), w.day), p)
    requires open.memory == MemoryAfter(host, w.memory, p.opening) && Genuine(host, w.memory, p.opening)
    ensures Ticks(host, w, next, t, p)
  {
    hide Genuine, Sees, MemoryAfter, Moves, Sent, Reacted, SubmitSteps, Services, Turns, InOrder, SeenServed, NewDay;
    var m, changed := MarketAt(w.quotes, t), NewDay(host.dayOf(t), w.day);
    var queue := w.queue + Sent(p.opening) + Sent(p.reacting);
    MemoryConcat(host, w.memory, p.opening, p.reacting + p.settling);
    GenuineConcat(host, w.memory, p.opening, p.reacting + p.settling);
    Associates(p.opening, p.reacting, p.settling);
    Associates(w.heard, p.opening, p.reacting + p.settling);
    forall id | id in w.accounts
      ensures Moves(w, served, id, ServedSteps(p, w.roster, id, changed, m))
      ensures Moves(w, next, id, TickSteps(p, w.roster, id, changed, m, queue)) {
      var a, b := OpeningSteps(p.opening, id, changed, t.timestamp), [ActivateStep(t)] + Services(Turns(w.roster, id), m);
      var c := Reacted(p.reacting, id, t.timestamp) + SubmitSteps(queue, id, m) + Reacted(p.settling, id, t.timestamp);
      MovesOn(w, open, served, id, a, b);
      MovesOn(w, served, next, id, a + b, c);
      StepsRegroup(a, [ActivateStep(t)], Services(Turns(w.roster, id), m), Reacted(p.reacting, id, t.timestamp),
                   SubmitSteps(queue, id, m), Reacted(p.settling, id, t.timestamp));
    }
    ServedIsSeen(w, served, p, changed, m);
  }

  lemma StepsRegroup(a: seq<Step>, b: seq<Step>, c: seq<Step>, d: seq<Step>, e: seq<Step>, f: seq<Step>)
    ensures a + (b + c) == a + b + c && a + (b + c) + (d + e + f) == a + b + c + d + e + f
  {
  }

  lemma ServedIsSeen<M>(w: World<M>, served: World<M>, p: Parts, changed: bool, m: Market)
    requires Sees(served, p.reacting) && served.accounts.Keys == w.accounts.Keys && served.timestamp == m.tick.timestamp
    requires forall id :: id in w.accounts ==> Moves(w, served, id, ServedSteps(p, w.roster, id, changed, m))
    ensures SeenServed(w, p, changed, m)
  {
    hide Run, Reacted, EmittedBy, ServedSteps;
    forall k, id | 0 <= k < |p.reacting| && id in w.accounts
      ensures id in p.reacting[k].accounts
      ensures p.reacting[k].accounts[id]
           == Run(w.accounts[id], ServedSteps(p, w.roster, id, changed, m)
                                  + Reacted(p.reacting[..k], id, m.tick.timestamp)).account {
      assert Moves(w, served, id, ServedSteps(p, w.roster, id, changed, m));
      RunConcat(w.accounts[id], ServedSteps(p, w.roster, id, changed, m), Reacted(p.reacting[..k], id, m.tick.timestamp));
    }
  }
}
