/** Whole replays: quotes and days follow the ticks, each tick is told once, each order sent is submitted once, each event is
    told once, and every account goes through a run in step with the ticks, so that the laws of runs hold for it. */
module ReplayBooks {
  import opened Numeric
  import opened Domain
  import opened TradeFlow
  import opened Matcher
  import opened Backtest
  import opened BacktestBooks
  import opened BacktestAccount
  import opened BacktestRuns
  import opened Replay
  import opened ReplayRuns
  import opened ReplayLaws

  // ---- Quotes and days ----

  /** The quote of an instrument's last tick, or else the one from before. */
  function LastShown(quotes: map<string, Quote>, ticks: seq<MarketTick>, i: string): Option<Quote> {
    if ticks == [] then if i in quotes then Some(quotes[i]) else None
    else if ticks[|ticks| - 1].instrument == i then Some(ShownBy(ticks[|ticks| - 1]))
    else LastShown(quotes, ticks[..|ticks| - 1], i)
  }

  /** The last day named. */
  function LastDay<M>(host: Host<M>, day: string, ticks: seq<MarketTick>): string {
    if ticks == [] then day
    else if host.dayOf(ticks[|ticks| - 1]) != "" then host.dayOf(ticks[|ticks| - 1])
    else LastDay(host, day, ticks[..|ticks| - 1])
  }

  /** What every tick leaves as it was. */
  lemma {:induction false} ReplayFrame<M>(host: Host<M>, w: World<M>, ticks: seq<MarketTick>)
    ensures ReplayTicks(host, w, ticks).roster == w.roster && ReplayTicks(host, w, ticks).accounts.Keys == w.accounts.Keys
  {
    hide ProcessTick, Ticks;
    if ticks != [] {
      var before := ReplayTicks(host, w, ticks[..|ticks| - 1]);
      ReplayFrame(host, w, ticks[..|ticks| - 1]);
      var p := TickLaw(host, before, ticks[|ticks| - 1]);
      TicksMeans(host, before, ProcessTick(host, before, ticks[|ticks| - 1]), ticks[|ticks| - 1], p);
    }
  }

  lemma TicksMeans<M>(host: Host<M>, w: World<M>, next: World<M>, t: MarketTick, p: Parts)
    requires Ticks(host, w, next, t, p)
    ensures next.roster == w.roster && next.day == DayOn(host.dayOf(t), w.day) && next.accounts.Keys == w.accounts.Keys
    ensures next.quotes == w.quotes[t.instrument := ShownBy(t)]
    ensures next.heard == w.heard + p.All() && next.queue == Sent(p.settling)
    ensures next.memory == MemoryAfter(host, w.memory, p.All()) && Genuine(host, w.memory, p.All())
    ensures InOrder(w.accounts, t, NewDay(host.dayOf(t), w.day), p)
  {
    hide Genuine, MemoryAfter, SeenServed, Moves, TickSteps, Sent, InOrder;
  }

  /** After every tick of a replay the quote remembered of an instrument is that of its last tick, so that the next tick is
      matched against it; and the day is the last one named. */
  lemma {:induction false} QuotesFollowTheTicks<M>(host: Host<M>, w: World<M>, ticks: seq<MarketTick>, i: string)
    ensures var end := ReplayTicks(host, w, ticks);
      && LastShown(end.quotes, [], i) == LastShown(w.quotes, ticks, i)
      && end.day == LastDay(host, w.day, ticks)
  {
    hide ProcessTick, Ticks;
    if ticks != [] {
      var before, t := ReplayTicks(host, w, ticks[..|ticks| - 1]), ticks[|ticks| - 1];
      QuotesFollowTheTicks(host, w, ticks[..|ticks| - 1], i);
      var p := TickLaw(host, before, t);
      TicksMeans(host, before, ProcessTick(host, before, t), t, p);
    }
  }

  // ---- What is told ----

  function TicksTold(heard: seq<Heard>): seq<MarketTick> {
    if heard == [] then []
    else TicksTold(heard[..|heard| - 1]) + TickToldBy(heard[|heard| - 1])
  }

  function TickToldBy(h: Heard): seq<MarketTick> {
    if h.callback.OnTick? then [h.callback.tick] else []
  }

  /** How often a new day was told. */
  function DaysTold(heard: seq<Heard>): nat {
    if heard == [] then 0
    else DaysTold(heard[..|heard| - 1]) + if heard[|heard| - 1].callback == OnPositions then 1 else 0
  }

  lemma {:induction false} ToldConcat(x: seq<Heard>, y: seq<Heard>)
    ensures TicksTold(x + y) == TicksTold(x) + TicksTold(y) && DaysTold(x + y) == DaysTold(x) + DaysTold(y)
    decreases |y|
  {
    hide TickToldBy;
    if y == [] {
      assert x + y == x;
    } else {
      ToldConcat(x, y[..|y| - 1]);
      assert (x + y)[..|x + y| - 1] == x + y[..|y| - 1] && (x + y)[|x + y| - 1] == y[|y| - 1];
      Associates(TicksTold(x), TicksTold(y[..|y| - 1]), TickToldBy(y[|y| - 1]));
    }
  }

  lemma {:induction false} EventsTellNoTick(heard: seq<Heard>)
    requires OnlyEvents(heard)
    ensures TicksTold(heard) == [] && DaysTold(heard) == 0
  {
    if heard != [] {
      assert heard[|heard| - 1] in heard;
      EventsTellNoTick(heard[..|heard| - 1]);
    }
  }

  lemma TickTells(was: map<string, Book>, t: MarketTick, changed: bool, p: Parts)
    requires InOrder(was, t, changed, p)
    ensures TicksTold(p.All()) == [t] && DaysTold(p.All()) == if changed then 1 else 0
  {
    hide BooksNextDay, OnlyEvents, TicksTold, DaysTold;
    ToldConcat(p.opening + p.reacting, p.settling);
    ToldConcat(p.opening, p.reacting);
    EventsTellNoTick(p.settling);
    EmptyTells();
    if changed {
      OpeningTells(p.opening, t);
      EventsTellNoTick(p.reacting);
    } else {
      var last := |p.reacting| - 1;
      ReactingTells(p.reacting[..last], p.reacting[last], t);
      assert p.reacting == p.reacting[..last] + [p.reacting[last]];
    }
    NothingAdded([t]);
  }

  lemma OpeningTells(heard: seq<Heard>, t: MarketTick)
    requires |heard| >= 2 && heard[0].callback == OnPositions && heard[1].callback == OnTick(t) && OnlyEvents(heard[2..])
    ensures TicksTold(heard) == [t] && DaysTold(heard) == 1
  {
    hide OnlyEvents, TicksTold, DaysTold;
    var a, b, rest := heard[0], heard[1], heard[2..];
    assert heard == [a] + [b] + rest;
    EventsTellNoTick(rest);
    ToldConcat([a] + [b], rest);
    ToldConcat([a], [b]);
    TellsOne(a);
    TellsOne(b);
    NothingAdded([t]);
  }

  lemma ReactingTells(events: seq<Heard>, last: Heard, t: MarketTick)
    requires last.callback == OnTick(t) && OnlyEvents(events)
    ensures TicksTold(events + [last]) == [t] && DaysTold(events + [last]) == 0
  {
    hide OnlyEvents, TicksTold, DaysTold;
    EventsTellNoTick(events);
    ToldConcat(events, [last]);
    TellsOne(last);
    NothingAdded([t]);
  }

  lemma TellsOne(h: Heard)
    ensures TicksTold([h]) == TickToldBy(h) && DaysTold([h]) == if h.callback == OnPositions then 1 else 0
  {
    assert [h][..0] == [];
  }

  lemma EmptyTells()
    ensures TicksTold([]) == [] && DaysTold([]) == 0
  {
  }

  /** How many of the ticks start a day. */
  function DaysBegun<M>(host: Host<M>, day: string, ticks: seq<MarketTick>): nat {
    if ticks == [] then 0
    else
      var front := ticks[..|ticks| - 1];
      DaysBegun(host, day, front) + if NewDay(host.dayOf(ticks[|ticks| - 1]), LastDay(host, day, front)) then 1 else 0
  }

  /** Over every replay the strategies are told each tick exactly once, in order, and each new day exactly once. */
  lemma {:induction false} EachTickIsToldOnce<M>(host: Host<M>, w: World<M>, ticks: seq<MarketTick>)
    ensures var end := ReplayTicks(host, w, ticks);
      && TicksTold(end.heard) == TicksTold(w.heard) + ticks
      && DaysTold(end.heard) == DaysTold(w.heard) + DaysBegun(host, w.day, ticks)
  {
    hide ProcessTick, Ticks, InOrder, TicksTold, DaysTold;
    if ticks == [] {
      NothingAdded(TicksTold(w.heard));
    } else {
      var front, t := ticks[..|ticks| - 1], ticks[|ticks| - 1];
      var before := ReplayTicks(host, w, front);
      EachTickIsToldOnce(host, w, front);
      QuotesFollowTheTicks(host, w, front, "");
      var p := TickLaw(host, before, t);
      TicksMeans(host, before, ProcessTick(host, before, t), t, p);
      TickTells(before.accounts, t, NewDay(host.dayOf(t), before.day), p);
      ToldConcat(before.heard, p.All());
      Associates(TicksTold(w.heard), front, [t]);
      assert front + [t] == ticks;
    }
  }

  /** And every reaction is the strategies' own, given what they remember and see. */
  lemma {:induction false} ReactionsAreGenuine<M>(host: Host<M>, w: World<M>, ticks: seq<MarketTick>)
    returns (heard: seq<Heard>)
    ensures var end := ReplayTicks(host, w, ticks);
      end.heard == w.heard + heard && end.memory == MemoryAfter(host, w.memory, heard) && Genuine(host, w.memory, heard)
  {
    hide ProcessTick, Ticks, InOrder, MemoryAfter, Genuine;
    if ticks == [] {
      heard := [];
      NothingAdded(w.heard);
      NothingRemembered(host, w.memory);
    } else {
      var t, before := ticks[|ticks| - 1], ReplayTicks(host, w, ticks[..|ticks| - 1]);
      var earlier := ReactionsAreGenuine(host, w, ticks[..|ticks| - 1]);
      var p := TickLaw(host, before, t);
      TicksMeans(host, before, ProcessTick(host, before, t), t, p);
      heard := earlier + p.All();
      Associates(w.heard, earlier, p.All());
      MemoryConcat(host, w.memory, earlier, p.All());
      GenuineConcat(host, w.memory, earlier, p.All());
    }
  }

  lemma NothingRemembered<M>(host: Host<M>, memory: M)
    ensures MemoryAfter(host, memory, []) == memory && Genuine(host, memory, [])
  {
  }

  // ---- Runs in step with the ticks ----

  predicate AllCancels(steps: seq<Step>, timestamp: string) {
    forall s :: s in steps ==> s.CancelStep? && s.timestamp == timestamp
  }

  predicate AllSubmits(steps: seq<Step>, m: Market) {
    forall s :: s in steps ==> s.SubmitStep? && s.market == m
  }

  /** An account's steps in a tick: on a new day the roll, once and first, with cancels after it; activation and service of
      what is due and pending; cancels; submissions; and cancels again. All of it on this market. */
  ghost predicate InStep(steps: seq<Step>, changed: bool, turns: nat, m: Market) {
    exists a, b, c, d :: AllCancels(a, m.tick.timestamp) && AllCancels(b, m.tick.timestamp) && AllSubmits(c, m)
                         && AllCancels(d, m.tick.timestamp) && steps == Phases(changed, turns, m, a, b, c, d)
  }

  function Phases(changed: bool, turns: nat, m: Market, a: seq<Step>, b: seq<Step>, c: seq<Step>, d: seq<Step>): seq<Step> {
    (if changed then [RollStep] + a else []) + [ActivateStep(m.tick)] + Services(turns, m) + b + c + d
  }

  lemma {:induction false} ReactedCancels(heard: seq<Heard>, id: string, timestamp: string)
    ensures AllCancels(Reacted(heard, id, timestamp), timestamp)
  {
    if heard != [] {
      ReactedCancels(heard[..|heard| - 1], id, timestamp);
      CancelStepsCancel(heard[|heard| - 1].actions, id, timestamp);
    }
  }

  lemma {:induction false} CancelStepsCancel(actions: seq<Action>, id: string, timestamp: string)
    ensures AllCancels(CancelSteps(actions, id, timestamp), timestamp)
  {
    if actions != [] {
      CancelStepsCancel(actions[..|actions| - 1], id, timestamp);
    }
  }

  lemma {:induction false} SubmitStepsSubmit(queue: seq<OrderRequest>, id: string, m: Market)
    ensures AllSubmits(SubmitSteps(queue, id, m), m) && RequestsIn(SubmitSteps(queue, id, m)) == AddressedTo(queue, id)
  {
    if queue != [] {
      var front, last := queue[..|queue| - 1], queue[|queue| - 1];
      SubmitStepsSubmit(front, id, m);
      if last.accountId == id {
        OneMore(SubmitSteps(front, id, m), SubmitStep(last, m));
      } else {
        NothingAdded(SubmitSteps(front, id, m));
        NothingAdded(AddressedTo(front, id));
      }
    }
  }

  /** The orders that steps submit. */
  function RequestsIn(steps: seq<Step>): seq<OrderRequest> {
    if steps == [] then [] else RequestsIn(steps[..|steps| - 1]) + RequestOfStep(steps[|steps| - 1])
  }

  function RequestOfStep(s: Step): seq<OrderRequest> {
    if s.SubmitStep? then [s.request] else []
  }

  function AddressedTo(queue: seq<OrderRequest>, id: string): seq<OrderRequest> {
    if queue == [] then []
    else AddressedTo(queue[..|queue| - 1], id) + if queue[|queue| - 1].accountId == id then [queue[|queue| - 1]] else []
  }

  lemma {:induction false} RequestsConcat(x: seq<Step>, y: seq<Step>)
    ensures RequestsIn(x + y) == RequestsIn(x) + RequestsIn(y)
    decreases |y|
  {
    hide RequestOfStep;
    if y == [] {
      assert x + y == x;
    } else {
      RequestsConcat(x, y[..|y| - 1]);
      assert (x + y)[..|x + y| - 1] == x + y[..|y| - 1] && (x + y)[|x + y| - 1] == y[|y| - 1];
      Associates(RequestsIn(x), RequestsIn(y[..|y| - 1]), RequestOfStep(y[|y| - 1]));
    }
  }

  lemma {:induction false} AddressedConcat(x: seq<OrderRequest>, y: seq<OrderRequest>, id: string)
    ensures AddressedTo(x + y, id) == AddressedTo(x, id) + AddressedTo(y, id)
    decreases |y|
  {
    if y == [] {
      assert x + y == x;
    } else {
      var front, mine := y[..|y| - 1], if y[|y| - 1].accountId == id then [y[|y| - 1]] else [];
      AddressedConcat(x, front, id);
      assert (x + y)[..|x + y| - 1] == x + front && (x + y)[|x + y| - 1] == y[|y| - 1];
      Associates(AddressedTo(x, id), AddressedTo(front, id), mine);
    }
  }

  lemma {:induction false} NoRequests(steps: seq<Step>)
    requires forall s :: s in steps ==> !s.SubmitStep?
    ensures RequestsIn(steps) == []
  {
    if steps != [] {
      assert steps[|steps| - 1] in steps;
      NoRequests(steps[..|steps| - 1]);
    }
  }

  lemma TickStepsInStep(p: Parts, roster: seq<string>, id: string, changed: bool, m: Market, queue: seq<OrderRequest>)
    ensures var steps := TickSteps(p, roster, id, changed, m, queue);
      InStep(steps, changed, Turns(roster, id), m) && RequestsIn(steps) == AddressedTo(queue, id)
  {
    hide Reacted, SubmitSteps, AllCancels, AllSubmits, Turns, Services, AddressedTo, RequestsIn;
    var ts := m.tick.timestamp;
    var a, b, d := Reacted(p.opening, id, ts), Reacted(p.reacting, id, ts), Reacted(p.settling, id, ts);
    var c := SubmitSteps(queue, id, m);
    ReactedCancels(p.opening, id, ts);
    ReactedCancels(p.reacting, id, ts);
    ReactedCancels(p.settling, id, ts);
    SubmitStepsSubmit(queue, id, m);
    assert TickSteps(p, roster, id, changed, m, queue) == Phases(changed, Turns(roster, id), m, a, b, c, d);
    PhasesRequest(changed, Turns(roster, id), m, a, b, c, d);
  }

  lemma PhasesRequest(changed: bool, turns: nat, m: Market, a: seq<Step>, b: seq<Step>, c: seq<Step>, d: seq<Step>)
    requires AllCancels(a, m.tick.timestamp) && AllCancels(b, m.tick.timestamp) && AllCancels(d, m.tick.timestamp)
    ensures RequestsIn(Phases(changed, turns, m, a, b, c, d)) == RequestsIn(c)
  {
    hide RequestsIn;
    var head := (if changed then [RollStep] + a else []) + [ActivateStep(m.tick)] + Services(turns, m) + b;
    NoRequests(head);
    NoRequests(d);
    RequestsConcat(head + c, d);
    RequestsConcat(head, c);
    NothingAdded(RequestsIn(c));
  }

  function Joined(chunks: seq<seq<Step>>): seq<Step> {
    if chunks == [] then [] else Joined(chunks[..|chunks| - 1]) + chunks[|chunks| - 1]
  }

  /** Tick by tick, the chunks are in step: rolls exactly where the labels start a day, and markets that pair each tick with
      the quote of its instrument's last tick before it. */
  ghost predicate KeepStep<M>(host: Host<M>, w: World<M>, ticks: seq<MarketTick>, chunks: seq<seq<Step>>, turns: nat) {
    && |chunks| == |ticks|
    && forall k :: 0 <= k < |ticks| ==>
         InStep(chunks[k], NewDay(host.dayOf(ticks[k]), LastDay(host, w.day, ticks[..k])), turns,
                Market.Market(ticks[k], LastShown(w.quotes, ticks[..k], ticks[k].instrument)))
  }

  /** Whatever the strategies do, each account of a replay goes through a run in step with the ticks that emits just what the
      replay's account emits; and the orders it submits, with those still queued, are those that were queued or sent to it,
      each once and in order. */
  lemma {:induction false} ReplayIsARun<M>(host: Host<M>, w: World<M>, ticks: seq<MarketTick>, id: string)
    returns (chunks: seq<seq<Step>>, heard: seq<Heard>)
    requires id in w.accounts
    ensures var end := ReplayTicks(host, w, ticks);
      && KeepStep(host, w, ticks, chunks, Turns(w.roster, id)) && Moves(w, end, id, Joined(chunks))
      && end.heard == w.heard + heard
      && RequestsIn(Joined(chunks)) + AddressedTo(end.queue, id) == AddressedTo(w.queue + Sent(heard), id)
  {
    hide ProcessTick, Ticks, InStep, Moves, NewDay, LastDay, LastShown, Sent, AddressedTo, RequestsIn, Turns, KeepStep,
      InOrder, TickSteps;
    if ticks == [] {
      NothingKept(host, w, Turns(w.roster, id));
      chunks, heard := [], [];
      SameBooks(w, w, id);
      NothingSentYet(w.queue, id);
      NothingAdded(w.heard);
    } else {
      var front, t := ticks[..|ticks| - 1], ticks[|ticks| - 1];
      var before := ReplayTicks(host, w, front);
      var earlier, said := ReplayIsARun(host, w, front, id);
      ReplayFrame(host, w, front);
      QuotesFollowTheTicks(host, w, front, t.instrument);
      var p := TickLaw(host, before, t);
      var next := ProcessTick(host, before, t);
      TicksMeans(host, before, next, t, p);
      var changed, m := NewDay(host.dayOf(t), before.day), MarketAt(before.quotes, t);
      assert m == Market.Market(t, LastShown(w.quotes, front, t.instrument)) by {
        MarketIsShown(before.quotes, t);
      }
      var queue := before.queue + Sent(p.opening) + Sent(p.reacting);
      var steps := TickSteps(p, w.roster, id, changed, m, queue);
      TicksMove(host, before, next, t, p, id);
      TickStepsInStep(p, w.roster, id, changed, m, queue);
      MovesOn(w, before, next, id, Joined(earlier), steps);
      chunks, heard := earlier + [steps], said + p.All();
      Associates(w.heard, said, p.All());
      OneMore(earlier, steps);
      KeepsStepOn(host, w, front, t, earlier, steps, Turns(w.roster, id));
      assert front + [t] == ticks;
      QueueGoesOn(w.queue, said, p, before.queue, RequestsIn(Joined(earlier)), id);
      RequestsConcat(Joined(earlier), steps);
    }
  }

  lemma NothingKept<M>(host: Host<M>, w: World<M>, turns: nat)
    ensures KeepStep(host, w, [], [], turns)
  {
  }

  lemma KeepsStepOn<M>(host: Host<M>, w: World<M>, front: seq<MarketTick>, t: MarketTick, chunks: seq<seq<Step>>,
                       steps: seq<Step>, turns: nat)
    requires KeepStep(host, w, front, chunks, turns)
    requires InStep(steps, NewDay(host.dayOf(t), LastDay(host, w.day, front)), turns,
                    Market.Market(t, LastShown(w.quotes, front, t.instrument)))
    ensures KeepStep(host, w, front + [t], chunks + [steps], turns)
  {
    hide InStep, NewDay, LastDay, LastShown;
    var ticks, all := front + [t], chunks + [steps];
    forall k | 0 <= k < |ticks|
      ensures InStep(all[k], NewDay(host.dayOf(ticks[k]), LastDay(host, w.day, ticks[..k])), turns,
                     Market.Market(ticks[k], LastShown(w.quotes, ticks[..k], ticks[k].instrument))) {
      if k < |front| {
        assert ticks[k] == front[k] && ticks[..k] == front[..k] && all[k] == chunks[k];
      } else {
        OneMore(front, t);
      }
    }
  }

  lemma NothingSentYet(queue: seq<OrderRequest>, id: string)
    ensures RequestsIn(Joined([])) + AddressedTo(queue, id) == AddressedTo(queue + Sent([]), id)
  {
    assert queue + [] == queue;
  }

  lemma MarketIsShown(quotes: map<string, Quote>, t: MarketTick)
    ensures MarketAt(quotes, t) == Market.Market(t, LastShown(quotes, [], t.instrument))
  {
  }

  lemma TicksMove<M>(host: Host<M>, w: World<M>, next: World<M>, t: MarketTick, p: Parts, id: string)
    requires Ticks(host, w, next, t, p) && id in w.accounts
    ensures Moves(w, next, id, TickSteps(p, w.roster, id, NewDay(host.dayOf(t), w.day), MarketAt(w.quotes, t),
                                         w.queue + Sent(p.opening) + Sent(p.reacting)))
  {
    hide Genuine, MemoryAfter, SeenServed, Moves, TickSteps, Sent, InOrder, NewDay, MarketAt;
  }

  /** What was submitted before, what this tick submits, and what it leaves queued. */
  lemma QueueGoesOn(start: seq<OrderRequest>, said: seq<Heard>, p: Parts, queue: seq<OrderRequest>,
                    submitted: seq<OrderRequest>, id: string)
    requires submitted + AddressedTo(queue, id) == AddressedTo(start + Sent(said), id)
    ensures submitted + AddressedTo(queue + Sent(p.opening) + Sent(p.reacting), id) + AddressedTo(Sent(p.settling), id)
         == AddressedTo(start + Sent(said + p.All()), id)
  {
    hide AddressedTo, Sent;
    var a, b, c, all := Sent(p.opening), Sent(p.reacting), Sent(p.settling), start + Sent(said);
    SentConcat(said, p.All());
    SentConcat(p.opening + p.reacting, p.settling);
    SentConcat(p.opening, p.reacting);
    SentRegroup(start, Sent(said), a, b, c);
    AddressedConcat(all + a + b, c, id);
    AddressedConcat(all + a, b, id);
    AddressedConcat(all, a, id);
    AddressedConcat(queue + a, b, id);
    AddressedConcat(queue, a, id);
    SubmittedRegroup(submitted, AddressedTo(queue, id), AddressedTo(a, id), AddressedTo(b, id), AddressedTo(c, id));
  }

  lemma SentRegroup<T>(s: seq<T>, t: seq<T>, a: seq<T>, b: seq<T>, c: seq<T>)
    ensures s + (t + (a + b + c)) == s + t + a + b + c
  {
  }

  lemma SubmittedRegroup<T>(s: seq<T>, q: seq<T>, a: seq<T>, b: seq<T>, c: seq<T>)
    ensures s + (q + a + b) + c == s + q + a + b + c
  {
  }

  // ---- What the accounts of a replay keep ----

  /** For all strategies and ticks, what an attachment of a replay that starts fresh holds is what the events its account has
      emitted in the replay account for: positions, orders, and profit, which is the whole cash flow exactly when no
      close has left any unbooked. The account shows the cash its attachments have earned. */
  lemma ReplayKeepsBooks<M>(host: Host<M>, w: World<M>, ticks: seq<MarketTick>, id: string, name: string)
    requires w.emitted == [] && id in w.accounts && Fresh(w.accounts[id])
    requires id in ReplayTicks(host, w, ticks).accounts
    requires name in ReplayTicks(host, w, ticks).accounts[id].attachments
    ensures var end := ReplayTicks(host, w, ticks);
      var own, trace := end.accounts[id].attachments[name], Of(EmittedBy(end.emitted, id), name);
      && SnapshotAgrees(end.accounts[id])
      && PositionsMatchTrades(own, trace) && OrdersPartitioned(own, trace) && ProfitIsAccounted(own, trace)
      && (own.costs.multiplier > 0.0 ==> (ProfitIsCashFlow(own, trace) <==> own.unbooked == 0.0))
      && (OpensPriced(trace) ==> ProfitIsCashFlow(own, trace))
  {
    hide ReplayTicks, Run, Fresh, PositionsMatchTrades, OrdersPartitioned, ProfitIsCashFlow, ProfitIsAccounted, OpensPriced,
      SnapshotAgrees, KeepStep;
    var end, start := ReplayTicks(host, w, ticks), w.accounts[id];
    var chunks, _ := ReplayIsARun(host, w, ticks, id);
    var steps := Joined(chunks);
    NothingAdded(Run(start, steps).events);
    assert EmittedBy(w.emitted, id) == [];
    CashOverRuns(start, steps);
    PositionsOverRuns(start, steps, name);
    OrdersOverRuns(start, steps, name);
    CashFlowOverRuns(start, steps, name);
  }
}
