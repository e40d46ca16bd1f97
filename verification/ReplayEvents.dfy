/** Every event of a replay is told once: none is told twice, and only events that cancels raise while others are being told
    can be lost. */
module ReplayEvents {
  import opened Numeric
  import opened Domain
  import opened Backtest
  import opened BacktestAccount
  import opened BacktestRuns
  import opened Replay
  import opened ReplayRuns
  import opened ReplayLaws

  /** The events told. */
  function Told(heard: seq<Heard>): seq<OrderEvent> {
    if heard == [] then [] else Told(heard[..|heard| - 1]) + ToldBy(heard[|heard| - 1])
  }

  function ToldBy(h: Heard): seq<OrderEvent> {
    if h.callback.OnOrder? then [h.callback.event] else []
  }

  /** The events that strategies raised, by cancelling, while they were being told of events. */
  function RaisedWhileTold(heard: seq<Heard>): seq<OrderEvent> {
    if heard == [] then [] else RaisedWhileTold(heard[..|heard| - 1]) + RaisedWhileToldBy(heard[|heard| - 1])
  }

  function RaisedWhileToldBy(h: Heard): seq<OrderEvent> {
    if h.callback.OnOrder? || h.callback.OnPosition? then h.events else []
  }

  lemma {:induction false} ToldConcat(x: seq<Heard>, y: seq<Heard>)
    ensures Told(x + y) == Told(x) + Told(y) && RaisedWhileTold(x + y) == RaisedWhileTold(x) + RaisedWhileTold(y)
    decreases |y|
  {
    hide ToldBy, RaisedWhileToldBy;
    if y == [] {
      assert x + y == x;
    } else {
      var front, last := y[..|y| - 1], y[|y| - 1];
      ToldConcat(x, front);
      assert (x + y)[..|x + y| - 1] == x + front && (x + y)[|x + y| - 1] == last;
      Associates(Told(x), Told(front), ToldBy(last));
      Associates(RaisedWhileTold(x), RaisedWhileTold(front), RaisedWhileToldBy(last));
    }
  }

  lemma TellsOne(h: Heard)
    ensures Told([h]) == ToldBy(h) && RaisedWhileTold([h]) == RaisedWhileToldBy(h) && Raised([h]) == h.events
  {
    assert [h][..0] == [];
  }

  lemma TellsNothing()
    ensures Told([]) == [] && RaisedWhileTold([]) == [] && Raised([]) == []
  {
  }

  lemma {:induction false} AllRaisedWhileTold(heard: seq<Heard>)
    requires OnlyEvents(heard)
    ensures RaisedWhileTold(heard) == Raised(heard)
  {
    if heard != [] {
      assert heard[|heard| - 1] in heard;
      AllRaisedWhileTold(heard[..|heard| - 1]);
    }
  }

  /** Dispatching tells exactly the events at hand. */
  lemma {:induction false} DispatchTells(heard: seq<Heard>, events: seq<OrderEvent>, withPositions: bool)
    requires Dispatches(heard, events, withPositions)
    ensures Told(heard) == events
    decreases |events|
  {
    hide Told, PositionKnown;
    if events == [] {
      TellsNothing();
    } else {
      var h, e := heard[0], events[0];
      TellsOne(h);
      assert [e] + events[1..] == events;
      if withPositions && IsTradeFill(e) && PositionKnown(h.accounts, e) {
        var p, rest := heard[1], heard[2..];
        assert heard == [h] + [p] + rest;
        DispatchTells(rest, events[1..], withPositions);
        TellsOne(p);
        ToldConcat([h] + [p], rest);
        ToldConcat([h], [p]);
        NothingAdded([e]);
      } else {
        assert heard == [h] + heard[1..];
        DispatchTells(heard[1..], events[1..], withPositions);
        ToldConcat([h], heard[1..]);
      }
    }
  }

  // ---- The balance ----

  /** Of the events that arose, each was told, waits, or arose while others were told; if none did, those told and those
      waiting are exactly those that arose, in order. */
  ghost predicate Balanced<M>(w: World<M>) {
    && |w.emitted| == |Told(w.heard)| + |w.events| + |RaisedWhileTold(w.heard)|
    && (RaisedWhileTold(w.heard) == [] ==> AllEvents(w.emitted) == Told(w.heard) + w.events)
  }

  /** Events arise and wait, and nobody hears anything. */
  ghost predicate Arise<M>(w: World<M>, next: World<M>) {
    && next.heard == w.heard && w.events <= next.events
    && AllEvents(next.emitted) == AllEvents(w.emitted) + next.events[|w.events|..]
  }

  lemma ArisingKeepsBalance<M>(w: World<M>, next: World<M>)
    requires Balanced(w) && Arise(w, next)
    ensures Balanced(next)
  {
    hide Told, RaisedWhileTold;
    assert |AllEvents(w.emitted)| == |w.emitted| && |AllEvents(next.emitted)| == |next.emitted|;
    Associates(Told(w.heard), w.events, next.events[|w.events|..]);
    Suffixes(w.events, w.events, next.events);
  }

  lemma ArisingOn<M>(w: World<M>, x: World<M>, y: World<M>)
    requires Arise(w, x) && Arise(x, y)
    ensures Arise(w, y)
  {
    hide AllEvents;
    Suffixes(w.events, x.events, y.events);
    Associates(AllEvents(w.emitted), x.events[|w.events|..], y.events[|x.events|..]);
  }

  lemma NothingArises<M>(w: World<M>)
    ensures Arise(w, w)
  {
    hide AllEvents;
    Suffixes(w.events, w.events, w.events);
    NothingAdded(AllEvents(w.emitted));
  }

  lemma OperationArises<M>(w: World<M>, id: string, out: Result)
    requires WellFormed(out.account)
    ensures Arise(w, Operated(w, id, out))
  {
    hide AllEvents, Noted;
    NotedFor(w.emitted, id, out.events, "");
  }

  lemma {:induction false} ServingArises<M>(w: World<M>, ids: seq<string>, m: Market)
    ensures Arise(w, ServeBooks(w, ids, m))
    decreases |ids|
  {
    hide Service, Operated, Arise;
    if ids == [] {
      NothingArises(w);
    } else if ids[0] in w.accounts {
      var next := Operated(w, ids[0], Service(w.accounts[ids[0]], m));
      OperationArises(w, ids[0], Service(w.accounts[ids[0]], m));
      ServingArises(next, ids[1..], m);
      ArisingOn(w, next, ServeBooks(next, ids[1..], m));
    } else {
      ServingArises(w, ids[1..], m);
    }
  }

  lemma {:induction false} SubmittingArises<M>(w: World<M>, requests: seq<OrderRequest>, m: Market)
    ensures Arise(w, SubmitQueued(w, requests, m))
    decreases |requests|
  {
    hide Submit, Operated, Arise, MakeEvent, Noted;
    if requests == [] {
      NothingArises(w);
    } else {
      var r := requests[0];
      if r.accountId !in w.accounts {
        var e := MakeEvent(r, "unknown", Rejected, 0, 0.0, m.tick.timestamp);
        var next := w.(events := w.events + [e], emitted := Noted(w.emitted, r.accountId, [e]));
        UnknownArises(w, r.accountId, e);
        SubmittingArises(next, requests[1..], m);
        ArisingOn(w, next, SubmitQueued(next, requests[1..], m));
      } else {
        var next := Operated(w, r.accountId, Submit(w.accounts[r.accountId], r, m));
        OperationArises(w, r.accountId, Submit(w.accounts[r.accountId], r, m));
        SubmittingArises(next, requests[1..], m);
        ArisingOn(w, next, SubmitQueued(next, requests[1..], m));
      }
    }
  }

  lemma UnknownArises<M>(w: World<M>, id: string, e: OrderEvent)
    ensures Arise(w, w.(events := w.events + [e], emitted := Noted(w.emitted, id, [e])))
  {
    hide AllEvents, Noted;
    NotedFor(w.emitted, id, [e], "");
  }

  /** Telling a tick or a new day: what is raised waits. */
  lemma TellingKeepsBalance<M>(host: Host<M>, w: World<M>, c: Callback)
    requires Balanced(w) && (c.OnTick? || c == OnPositions)
    ensures Balanced(Tell(host, w, c))
  {
    hide Tell, Told, RaisedWhileTold, AllMove, Sees, Genuine, MemoryAfter, Raised, Sent;
    var next := Tell(host, w, c);
    var h := TellReacts(host, w, c);
    TellsOne(h);
    ToldConcat(w.heard, [h]);
    NothingAdded(Told(w.heard));
    NothingAdded(RaisedWhileTold(w.heard));
    assert |AllEvents(w.emitted)| == |w.emitted| && |AllEvents(next.emitted)| == |next.emitted|;
    Associates(Told(w.heard), w.events, h.events);
  }

  /** Telling the events that wait, and dropping them with those raised meanwhile. */
  lemma DispatchKeepsBalance<M>(host: Host<M>, w: World<M>, withPositions: bool)
    requires Balanced(w)
    ensures Balanced(TellEvents(host, w, w.events, withPositions).(events := []))
  {
    hide TellEvents, Told, RaisedWhileTold, AllMove, Sees, Genuine, MemoryAfter, Raised, Sent, Dispatches, OnlyEvents;
    var next := TellEvents(host, w, w.events, withPositions);
    var heard := TellEventsReacts(host, w, w.events, withPositions);
    EventsOnly(heard, w.events, withPositions);
    AllRaisedWhileTold(heard);
    DispatchTells(heard, w.events, withPositions);
    ToldConcat(w.heard, heard);
    assert |AllEvents(w.emitted)| == |w.emitted| && |AllEvents(next.emitted)| == |next.emitted|;
    NothingAdded(Told(next.heard));
    NothingAdded(AllEvents(w.emitted));
  }

  lemma DrainKeepsBalance<M>(host: Host<M>, w: World<M>, withPositions: bool)
    requires Balanced(w)
    ensures Balanced(Drain(host, w, withPositions))
  {
    hide TellEvents, Balanced, NothingPending;
    if w.events != [] {
      DispatchKeepsBalance(host, w, withPositions);
      SameBalance(TellEvents(host, w, w.events, withPositions).(events := []), Drain(host, w, withPositions));
    }
  }

  /** Only events, record and emissions matter. */
  lemma SameBalance<M>(w: World<M>, v: World<M>)
    requires v.events == w.events && v.heard == w.heard && v.emitted == w.emitted
    ensures Balanced(v) <==> Balanced(w)
  {
  }

  lemma OpeningKeepsBalance<M>(host: Host<M>, w: World<M>, t: MarketTick)
    requires Balanced(w)
    ensures Balanced(OpenTick(host, w, t))
  {
    hide Tell, Drain, Balanced, RollBooks;
    if DayChanged(host, w, t) {
      var rolled := w.(timestamp := t.timestamp).(accounts := RollBooks(w.accounts));
      SameBalance(w, rolled);
      TellingKeepsBalance(host, rolled, OnPositions);
      var first := Tell(host, rolled, OnPositions);
      SameBalance(first, first.(day := host.dayOf(t)));
      TellingKeepsBalance(host, first.(day := host.dayOf(t)), OnTick(t));
      DrainKeepsBalance(host, Tell(host, first.(day := host.dayOf(t)), OnTick(t)), false);
    } else {
      SameBalance(w, OpenTick(host, w, t));
    }
  }

  lemma ClosingKeepsBalance<M>(host: Host<M>, w: World<M>, told: bool, m: Market)
    requires Balanced(w)
    ensures Balanced(CloseTick(host, w, told, m))
  {
    hide Tell, Drain, Balanced, TellEvents, SubmitQueued, NothingPending, Arise;
    var drained := Drain(host, w, true);
    DrainKeepsBalance(host, w, true);
    TellingKeepsBalance(host, drained, OnTick(m.tick));
    var ticked := if told then drained else Tell(host, drained, OnTick(m.tick));
    if ticked.queue == [] {
      SameBalance(ticked, CloseTick(host, w, told, m));
    } else {
      var waiting := ticked.(queue := []);
      SameBalance(ticked, waiting);
      SubmittingArises(waiting, ticked.queue, m);
      var sent := SubmitQueued(waiting, ticked.queue, m);
      ArisingKeepsBalance(waiting, sent);
      DispatchKeepsBalance(host, sent, true);
      SameBalance(if sent.events == [] then sent else TellEvents(host, sent, sent.events, true).(events := []),
                  CloseTick(host, w, told, m));
    }
  }

  lemma TickKeepsBalance<M>(host: Host<M>, w: World<M>, t: MarketTick)
    requires Balanced(w)
    ensures Balanced(ProcessTick(host, w, t))
  {
    hide OpenTick, CloseTick, ServeBooks, Balanced, Arise, ActivateBooks;
    var m, open := MarketOf(w, t), OpenTick(host, w, t);
    OpeningKeepsBalance(host, w, t);
    var active := open.(accounts := ActivateBooks(open.accounts, t));
    SameBalance(open, active);
    ServingArises(active, open.roster, m);
    ArisingKeepsBalance(active, ServiceTick(open, m));
    ClosingKeepsBalance(host, ServiceTick(open, m), DayChanged(host, w, t), m);
  }

  /** Over every replay each event is told at most once, and told or still waiting unless it arose from a cancel made while
      other events were told: told and waiting events are all that arose, in order, if and only if no such cancel took
      effect. */
  lemma EventsAreToldOnce<M>(host: Host<M>, w: World<M>, ticks: seq<MarketTick>)
    requires w.heard == [] && w.emitted == [] && w.events == []
    ensures var end := ReplayTicks(host, w, ticks);
      && |end.emitted| == |Told(end.heard)| + |end.events| + |RaisedWhileTold(end.heard)|
      && (AllEvents(end.emitted) == Told(end.heard) + end.events <==> RaisedWhileTold(end.heard) == [])
  {
    hide ReplayTicks, Told, RaisedWhileTold, AllEvents;
    ReplayIsBalanced(host, w, ticks);
    BalanceIsExact(ReplayTicks(host, w, ticks));
  }

  lemma BalanceIsExact<M>(w: World<M>)
    requires Balanced(w)
    ensures AllEvents(w.emitted) == Told(w.heard) + w.events <==> RaisedWhileTold(w.heard) == []
  {
    hide Told, RaisedWhileTold;
    assert |AllEvents(w.emitted)| == |w.emitted|;
  }

  lemma {:induction false} ReplayIsBalanced<M>(host: Host<M>, w: World<M>, ticks: seq<MarketTick>)
    requires w.heard == [] && w.emitted == [] && w.events == []
    ensures Balanced(ReplayTicks(host, w, ticks))
    decreases |ticks|
  {
    hide ProcessTick, Balanced;
    if ticks == [] {
      StartsBalanced(w);
    } else {
      ReplayIsBalanced(host, w, ticks[..|ticks| - 1]);
      TickKeepsBalance(host, ReplayTicks(host, w, ticks[..|ticks| - 1]), ticks[|ticks| - 1]);
    }
  }

  lemma StartsBalanced<M>(w: World<M>)
    requires w.heard == [] && w.emitted == [] && w.events == []
    ensures Balanced(w)
  {
  }
}
