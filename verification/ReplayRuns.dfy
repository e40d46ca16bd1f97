/** What callbacks do in a replay: strategies react for themselves, their orders queue up, their cancels are carried out at
    once, and events are told in order. Host and strategies are arbitrary throughout. */
module ReplayRuns {
  import opened Numeric
  import opened Domain
  import opened Backtest
  import opened BacktestBooks
  import opened BacktestAccount
  import opened BacktestRuns
  import opened Replay

  // ---- Reading the record of a replay ----

  function AllEvents(emitted: seq<Emission>): seq<OrderEvent> {
    seq(|emitted|, i requires 0 <= i < |emitted| => emitted[i].event)
  }

  /** The orders that actions send, with the identity of their context. */
  function SentBy(actions: seq<Action>): seq<OrderRequest> {
    if actions == [] then []
    else SentBy(actions[..|actions| - 1]) + SentByOne(actions[|actions| - 1])
  }

  function SentByOne(a: Action): seq<OrderRequest> {
    if !a.Send? || a.request.volume <= 0 || a.request.instrument == "" then []
    else if a.request.accountId == "" then [a.request.(accountId := a.accountId, strategyId := a.strategyId)]
    else [a.request.(strategyId := a.strategyId)]
  }

  function Sent(heard: seq<Heard>): seq<OrderRequest> {
    if heard == [] then [] else Sent(heard[..|heard| - 1]) + SentBy(heard[|heard| - 1].actions)
  }

  /** The cancels that actions ask of an account. */
  function CancelSteps(actions: seq<Action>, id: string, timestamp: string): seq<Step> {
    if actions == [] then []
    else CancelSteps(actions[..|actions| - 1], id, timestamp) + CancelStepOf(actions[|actions| - 1], id, timestamp)
  }

  function CancelStepOf(a: Action, id: string, timestamp: string): seq<Step> {
    if a.Withdraw? && a.accountId == id && a.clientOrderId != "" then [CancelStep(a.strategyId, a.clientOrderId, timestamp)]
    else []
  }

  function Reacted(heard: seq<Heard>, id: string, timestamp: string): seq<Step> {
    if heard == [] then []
    else Reacted(heard[..|heard| - 1], id, timestamp) + CancelSteps(heard[|heard| - 1].actions, id, timestamp)
  }

  function Raised(heard: seq<Heard>): seq<OrderEvent> {
    if heard == [] then [] else Raised(heard[..|heard| - 1]) + heard[|heard| - 1].events
  }

  /** The strategies' memory after hearing. */
  function MemoryAfter<M>(host: Host<M>, memory: M, heard: seq<Heard>): M {
    if heard == [] then memory
    else
      var last := heard[|heard| - 1];
      host.react(MemoryAfter(host, memory, heard[..|heard| - 1]), last.callback, last.accounts).memory
  }

  /** The actions are the strategies' own. */
  ghost predicate Genuine<M>(host: Host<M>, memory: M, heard: seq<Heard>) {
    forall k :: 0 <= k < |heard| ==>
      heard[k].actions
      == host.react(MemoryAfter(host, memory, heard[..k]), heard[k].callback, heard[k].accounts).actions
  }

  lemma {:induction false} SentConcat(x: seq<Heard>, y: seq<Heard>)
    ensures Sent(x + y) == Sent(x) + Sent(y) && Raised(x + y) == Raised(x) + Raised(y)
    decreases |y|
  {
    hide SentBy;
    if y == [] {
      assert x + y == x;
    } else {
      var front, last := y[..|y| - 1], y[|y| - 1];
      SentConcat(x, front);
      assert (x + y)[..|x + y| - 1] == x + front && (x + y)[|x + y| - 1] == last;
      Associates(Sent(x), Sent(front), SentBy(last.actions));
      Associates(Raised(x), Raised(front), last.events);
    }
  }

  lemma {:induction false} ReactedConcat(x: seq<Heard>, y: seq<Heard>, id: string, timestamp: string)
    ensures Reacted(x + y, id, timestamp) == Reacted(x, id, timestamp) + Reacted(y, id, timestamp)
    decreases |y|
  {
    hide CancelSteps;
    if y == [] {
      assert x + y == x;
    } else {
      var front, last := y[..|y| - 1], y[|y| - 1];
      ReactedConcat(x, front, id, timestamp);
      assert (x + y)[..|x + y| - 1] == x + front && (x + y)[|x + y| - 1] == last;
      Associates(Reacted(x, id, timestamp), Reacted(front, id, timestamp), CancelSteps(last.actions, id, timestamp));
    }
  }

  lemma {:induction false} MemoryConcat<M>(host: Host<M>, memory: M, x: seq<Heard>, y: seq<Heard>)
    ensures MemoryAfter(host, memory, x + y) == MemoryAfter(host, MemoryAfter(host, memory, x), y)
    decreases |y|
  {
    if y == [] {
      assert x + y == x;
    } else {
      MemoryConcat(host, memory, x, y[..|y| - 1]);
      assert (x + y)[..|x + y| - 1] == x + y[..|y| - 1] && (x + y)[|x + y| - 1] == y[|y| - 1];
    }
  }

  lemma GenuineConcat<M>(host: Host<M>, memory: M, x: seq<Heard>, y: seq<Heard>)
    requires Genuine(host, memory, x) && Genuine(host, MemoryAfter(host, memory, x), y)
    ensures Genuine(host, memory, x + y)
  {
    hide MemoryAfter;
    forall k | 0 <= k < |x + y|
      ensures (x + y)[k].actions
           == host.react(MemoryAfter(host, memory, (x + y)[..k]), (x + y)[k].callback, (x + y)[k].accounts).actions {
      if k < |x| {
        assert (x + y)[..k] == x[..k] && (x + y)[k] == x[k];
      } else {
        assert (x + y)[..k] == x + y[..k - |x|] && (x + y)[k] == y[k - |x|];
        MemoryConcat(host, memory, x, y[..k - |x|]);
      }
    }
  }

  // ---- Steps of one account ----

  lemma {:induction false} RunConcat(a: Account, x: seq<Step>, y: seq<Step>)
    requires WellFormed(a)
    ensures var first := Run(a, x);
      var second := Run(first.account, y);
      Run(a, x + y) == Result(second.account, first.events + second.events)
    decreases |y|
  {
    hide Apply;
    if y == [] {
      assert x + y == x;
    } else {
      RunConcat(a, x, y[..|y| - 1]);
      assert (x + y)[..|x + y| - 1] == x + y[..|y| - 1] && (x + y)[|x + y| - 1] == y[|y| - 1];
    }
  }

  lemma RunOne(a: Account, s: Step)
    requires WellFormed(a)
    ensures Run(a, [s]) == Apply(a, s) && Run(a, []) == Result(a, [])
  {
    assert [s][..0] == [];
  }

  /** From one world to another, an account takes these steps and emits just what they emit. */
  ghost predicate Moves<M>(w: World<M>, next: World<M>, id: string, steps: seq<Step>) {
    && id in w.accounts && id in next.accounts
    && next.accounts[id] == Run(w.accounts[id], steps).account
    && EmittedBy(next.emitted, id) == EmittedBy(w.emitted, id) + Run(w.accounts[id], steps).events
  }

  lemma MovesOn<M>(w: World<M>, x: World<M>, y: World<M>, id: string, a: seq<Step>, b: seq<Step>)
    requires Moves(w, x, id, a) && Moves(x, y, id, b)
    ensures Moves(w, y, id, a + b)
  {
    hide Run, EmittedBy;
    RunConcat(w.accounts[id], a, b);
  }

  lemma Stays<M>(w: World<M>, next: World<M>, id: string)
    requires id in w.accounts && id in next.accounts && next.accounts[id] == w.accounts[id]
    requires EmittedBy(next.emitted, id) == EmittedBy(w.emitted, id)
    ensures Moves(w, next, id, [])
  {
    hide EmittedBy;
  }

  lemma EmittedOne(emitted: seq<Emission>, m: Emission, other: string)
    ensures EmittedBy(emitted + [m], other) == EmittedBy(emitted, other) + (if m.accountId == other then [m.event] else [])
    ensures AllEvents(emitted + [m]) == AllEvents(emitted) + [m.event]
  {
    OneMore(emitted, m);
  }

  lemma NotedOne(emitted: seq<Emission>, id: string, events: seq<OrderEvent>, e: OrderEvent)
    ensures Noted(emitted, id, events + [e]) == Noted(emitted, id, events) + [Emission(id, e)]
  {
  }

  lemma NotedNone(emitted: seq<Emission>, id: string)
    ensures Noted(emitted, id, []) == emitted
  {
  }

  lemma {:induction false} NotedFor(emitted: seq<Emission>, id: string, events: seq<OrderEvent>, other: string)
    ensures EmittedBy(Noted(emitted, id, events), other)
         == EmittedBy(emitted, other) + (if other == id then events else [])
    ensures AllEvents(Noted(emitted, id, events)) == AllEvents(emitted) + events
    decreases |events|
  {
    hide Noted, EmittedBy, AllEvents;
    if events == [] {
      NotedNone(emitted, id);
      assert EmittedBy(emitted, other) + [] == EmittedBy(emitted, other) && AllEvents(emitted) + [] == AllEvents(emitted);
    } else {
      var front, last := events[..|events| - 1], events[|events| - 1];
      NotedFor(emitted, id, front, other);
      NotedOne(emitted, id, front, last);
      EmittedOne(Noted(emitted, id, front), Emission(id, last), other);
      assert front + [last] == events;
      Associates(EmittedBy(emitted, other), if other == id then front else [], if other == id then [last] else []);
      Associates(AllEvents(emitted), front, [last]);
    }
  }

  lemma OneOperates<M>(w: World<M>, id: string, s: Step, other: string)
    requires id in w.accounts && other in w.accounts
    ensures var next := Operated(w, id, Apply(w.accounts[id], s));
      && Moves(w, next, other, if other == id then [s] else [])
      && AllEvents(next.emitted) == AllEvents(w.emitted) + Apply(w.accounts[id], s).events
  {
    hide Apply, Run, Noted, EmittedBy;
    RunOne(w.accounts[id], s);
    NotedFor(w.emitted, id, Apply(w.accounts[id], s).events, other);
    if other != id {
      Stays(w, Operated(w, id, Apply(w.accounts[id], s)), other);
    }
  }

  // ---- What a callback does ----

  /** What strategies look at is the accounts as they are after the reactions so far. */
  ghost predicate Sees<M>(w: World<M>, heard: seq<Heard>) {
    forall k, id :: 0 <= k < |heard| && id in w.accounts ==>
      && id in heard[k].accounts
      && heard[k].accounts[id] == Run(w.accounts[id], Reacted(heard[..k], id, w.timestamp)).account
  }

  ghost predicate AllMove<M>(w: World<M>, next: World<M>, heard: seq<Heard>) {
    forall id :: id in w.accounts ==> Moves(w, next, id, Reacted(heard, id, w.timestamp))
  }

  /** From one world to another the strategies hear just this: their reactions are their own, the orders they send queue up,
      their cancels are carried out at once and raise events, and nothing else happens to accounts and orders. */
  ghost predicate Reacting<M>(host: Host<M>, w: World<M>, next: World<M>, heard: seq<Heard>) {
    && next.roster == w.roster && next.quotes == w.quotes && next.timestamp == w.timestamp
    && next.accounts.Keys == w.accounts.Keys && next.heard == w.heard + heard
    && next.memory == MemoryAfter(host, w.memory, heard) && Genuine(host, w.memory, heard) && Sees(w, heard)
    && next.queue == w.queue + Sent(heard) && AllEvents(next.emitted) == AllEvents(w.emitted) + Raised(heard)
    && AllMove(w, next, heard)
  }

  /** The events raised wait; day and flag are as they were. */
  predicate Waiting<M>(w: World<M>, next: World<M>, heard: seq<Heard>) {
    next.events == w.events + Raised(heard) && next.day == w.day && next.anyPending == w.anyPending
  }

  /** Waiting events, day and flag do not matter to the rest. */
  ghost predicate SameButWaiting<M>(w: World<M>, v: World<M>) {
    v == w.(events := v.events, day := v.day, anyPending := v.anyPending)
  }

  lemma ReactingFrom<M>(host: Host<M>, w: World<M>, v: World<M>, x: World<M>, y: World<M>, heard: seq<Heard>)
    requires Reacting(host, w, x, heard) && SameButWaiting(w, v) && SameButWaiting(x, y)
    ensures Reacting(host, v, y, heard)
  {
    hide Genuine, MemoryAfter, Sent, Raised, AllEvents, Run, Reacted, EmittedBy;
    forall id | id in v.accounts ensures Moves(v, y, id, Reacted(heard, id, v.timestamp)) {
      assert Moves(w, x, id, Reacted(heard, id, w.timestamp));
    }
  }

  lemma {:induction false} ActAllMoves<M>(w: World<M>, actions: seq<Action>, id: string)
    requires id in w.accounts
    ensures Moves(w, ActAll(w, actions), id, CancelSteps(actions, id, w.timestamp))
    decreases |actions|
  {
    hide Act, Moves, CancelStepOf, CancelSteps;
    if actions == [] {
      SameBooks(w, w, id);
      assert CancelSteps([], id, w.timestamp) == [] by {
        NothingAsked(id, w.timestamp);
      }
    } else {
      var a, rest := actions[0], actions[1..];
      var x := Act(w, a);
      ActMoves(w, a, id);
      ActMeans(w, a);
      ActAllMoves(x, rest, id);
      MovesOn(w, x, ActAll(x, rest), id, CancelStepOf(a, id, w.timestamp), CancelSteps(rest, id, w.timestamp));
      ActionsFromFront(actions, id, w.timestamp);
    }
  }

  lemma NothingAsked(id: string, timestamp: string)
    ensures CancelSteps([], id, timestamp) == [] && SentBy([]) == []
  {
  }

  lemma {:induction false} ActionsFromFront(actions: seq<Action>, id: string, timestamp: string)
    requires actions != []
    ensures SentBy(actions) == SentByOne(actions[0]) + SentBy(actions[1..])
    ensures CancelSteps(actions, id, timestamp)
         == CancelStepOf(actions[0], id, timestamp) + CancelSteps(actions[1..], id, timestamp)
    decreases |actions|
  {
    hide SentByOne, CancelStepOf;
    var front, last := actions[..|actions| - 1], actions[|actions| - 1];
    if front == [] {
      assert actions[1..] == [];
    } else {
      ActionsFromFront(front, id, timestamp);
      assert front[1..] == actions[1..][..|actions| - 2] && front[0] == actions[0];
      Associates(SentByOne(actions[0]), SentBy(front[1..]), SentByOne(last));
      Associates(CancelStepOf(actions[0], id, timestamp), CancelSteps(front[1..], id, timestamp),
                 CancelStepOf(last, id, timestamp));
    }
  }

  lemma ActMoves<M>(w: World<M>, a: Action, id: string)
    requires id in w.accounts
    ensures Moves(w, Act(w, a), id, CancelStepOf(a, id, w.timestamp))
  {
    hide Cancel, Moves, Noted, EmittedBy;
    if a.Withdraw? && a.clientOrderId != "" && a.accountId in w.accounts {
      var s := CancelStep(a.strategyId, a.clientOrderId, w.timestamp);
      OneOperates(w, a.accountId, s, id);
      assert Apply(w.accounts[a.accountId], s) == Cancel(w.accounts[a.accountId], a.strategyId, a.clientOrderId, w.timestamp);
    } else {
      SameBooks(w, Act(w, a), id);
    }
  }

  lemma SameBooks<M>(w: World<M>, next: World<M>, id: string)
    requires id in w.accounts && next.accounts == w.accounts && next.emitted == w.emitted
    ensures Moves(w, next, id, [])
  {
    hide EmittedBy;
  }

  lemma HeardOne(h: Heard, id: string, timestamp: string)
    ensures Sent([h]) == SentBy(h.actions) && Raised([h]) == h.events
    ensures Reacted([h], id, timestamp) == CancelSteps(h.actions, id, timestamp)
  {
    hide SentBy, CancelSteps;
    OneMore([], h);
    assert [h][..0] == [];
  }

  /** One callback. */
  lemma TellReacts<M>(host: Host<M>, w: World<M>, c: Callback) returns (h: Heard)
    ensures h.callback == c && h.accounts == w.accounts
    ensures Reacting(host, w, Tell(host, w, c), [h]) && Waiting(w, Tell(host, w, c), [h])
  {
    hide ActAll, Moves, AllEvents, EmittedBy, SentBy, CancelSteps, Raised, Sent, Reacted;
    var reaction := host.react(w.memory, c, w.accounts);
    var ready := w.(memory := reaction.memory);
    var acted := ActAll(ready, reaction.actions);
    h := Heard(c, w.accounts, reaction.actions, acted.events[|w.events|..]);
    var next := Tell(host, w, c);
    HeardOne(h, "", "");
    ActAllMeans(ready, reaction.actions);
    HearsOne(host, w, h);
    forall id | id in w.accounts ensures Moves(w, next, id, Reacted([h], id, w.timestamp)) {
      ActAllMoves(ready, reaction.actions, id);
      HeardOne(h, id, w.timestamp);
      SameBooksMove(w, ready, acted, next, id, CancelSteps(reaction.actions, id, w.timestamp));
    }
  }

  lemma {:induction false} ActAllMeans<M>(w: World<M>, actions: seq<Action>)
    ensures var next := ActAll(w, actions);
      && next == w.(accounts := next.accounts, queue := next.queue, events := next.events, emitted := next.emitted)
      && next.accounts.Keys == w.accounts.Keys && next.queue == w.queue + SentBy(actions)
      && next.events == w.events + next.events[|w.events|..]
      && AllEvents(next.emitted) == AllEvents(w.emitted) + next.events[|w.events|..]
    decreases |actions|
  {
    hide Act, AllEvents, SentByOne, SentBy;
    if actions == [] {
      NothingAsked("", "");
      NothingAdded(w.queue);
      NothingAdded(AllEvents(w.emitted));
      Suffixes(w.events, w.events, w.events);
    } else {
      var a, rest := actions[0], actions[1..];
      var x := Act(w, a);
      ActMeans(w, a);
      ActAllMeans(x, rest);
      var next := ActAll(x, rest);
      ActionsFromFront(actions, "", "");
      Associates(w.queue, SentByOne(a), SentBy(rest));
      Associates(AllEvents(w.emitted), x.events[|w.events|..], next.events[|x.events|..]);
      Suffixes(w.events, x.events, next.events);
    }
  }

  lemma ActMeans<M>(w: World<M>, a: Action)
    ensures var next := Act(w, a);
      && next == w.(accounts := next.accounts, queue := next.queue, events := next.events, emitted := next.emitted)
      && w.events <= next.events
      && next.accounts.Keys == w.accounts.Keys && next.queue == w.queue + SentByOne(a)
      && AllEvents(next.emitted) == AllEvents(w.emitted) + next.events[|w.events|..]
  {
    hide Cancel, AllEvents, Noted;
    if a.Withdraw? && a.clientOrderId != "" && a.accountId in w.accounts {
      NotedFor(w.emitted, a.accountId,
               Cancel(w.accounts[a.accountId], a.strategyId, a.clientOrderId, w.timestamp).events, "");
    }
    assert w.queue + [] == w.queue && AllEvents(w.emitted) + [] == AllEvents(w.emitted);
  }

  lemma HearsOne<M>(host: Host<M>, w: World<M>, h: Heard)
    requires h.accounts == w.accounts && h.actions == host.react(w.memory, h.callback, w.accounts).actions
    ensures MemoryAfter(host, w.memory, [h]) == host.react(w.memory, h.callback, w.accounts).memory
    ensures Genuine(host, w.memory, [h]) && Sees(w, [h])
  {
    assert [h][..0] == [];
  }

  lemma SameBooksMove<M>(w: World<M>, v: World<M>, x: World<M>, y: World<M>, id: string, steps: seq<Step>)
    requires Moves(v, x, id, steps)
    requires v.accounts == w.accounts && v.emitted == w.emitted && y.accounts == x.accounts && y.emitted == x.emitted
    ensures Moves(w, y, id, steps)
  {
    hide Run, EmittedBy;
  }

  // ---- One callback after another ----

  lemma SeesOn<M>(w: World<M>, x: World<M>, a: seq<Heard>, b: seq<Heard>)
    requires Sees(w, a) && Sees(x, b) && AllMove(w, x, a) && x.timestamp == w.timestamp && x.accounts.Keys == w.accounts.Keys
    ensures Sees(w, a + b)
  {
    hide Run, Reacted, EmittedBy;
    forall k, id | 0 <= k < |a + b| && id in w.accounts
      ensures id in (a + b)[k].accounts
      ensures (a + b)[k].accounts[id] == Run(w.accounts[id], Reacted((a + b)[..k], id, w.timestamp)).account {
      if k < |a| {
        assert (a + b)[..k] == a[..k] && (a + b)[k] == a[k];
      } else {
        assert (a + b)[..k] == a + b[..k - |a|] && (a + b)[k] == b[k - |a|];
        ReactedConcat(a, b[..k - |a|], id, w.timestamp);
        RunConcat(w.accounts[id], Reacted(a, id, w.timestamp), Reacted(b[..k - |a|], id, w.timestamp));
        assert Moves(w, x, id, Reacted(a, id, w.timestamp));
      }
    }
  }

  lemma AllMoveOn<M>(w: World<M>, x: World<M>, y: World<M>, a: seq<Heard>, b: seq<Heard>)
    requires AllMove(w, x, a) && AllMove(x, y, b) && x.timestamp == w.timestamp && x.accounts.Keys == w.accounts.Keys
    ensures AllMove(w, y, a + b)
  {
    hide Moves, Reacted;
    forall id | id in w.accounts ensures Moves(w, y, id, Reacted(a + b, id, w.timestamp)) {
      ReactedConcat(a, b, id, w.timestamp);
      MovesOn(w, x, y, id, Reacted(a, id, w.timestamp), Reacted(b, id, w.timestamp));
    }
  }

  lemma ReactingOn<M>(host: Host<M>, w: World<M>, x: World<M>, y: World<M>, a: seq<Heard>, b: seq<Heard>)
    requires Reacting(host, w, x, a) && Reacting(host, x, y, b)
    ensures Reacting(host, w, y, a + b)
    ensures Waiting(w, x, a) && Waiting(x, y, b) ==> Waiting(w, y, a + b)
  {
    hide Genuine, Sees, AllMove, MemoryAfter, Sent, Raised, AllEvents;
    SentConcat(a, b);
    MemoryConcat(host, w.memory, a, b);
    GenuineConcat(host, w.memory, a, b);
    SeesOn(w, x, a, b);
    AllMoveOn(w, x, y, a, b);
    Associates(w.heard, a, b);
    Associates(w.queue, Sent(a), Sent(b));
    Associates(w.events, Raised(a), Raised(b));
    Associates(AllEvents(w.emitted), Raised(a), Raised(b));
  }

  lemma NothingHeard<M>(host: Host<M>, w: World<M>)
    ensures Reacting(host, w, w, []) && Waiting(w, w, [])
  {
    hide AllEvents, Run, EmittedBy;
    forall id | id in w.accounts ensures Moves(w, w, id, Reacted([], id, w.timestamp)) {
      SameBooks(w, w, id);
    }
  }

  /** The strategies hear of each event once and in order, and right after a fill of their position, if it is known. */
  predicate Dispatches(heard: seq<Heard>, events: seq<OrderEvent>, withPositions: bool)
    decreases |events|
  {
    if events == [] then heard == []
    else
      && heard != [] && heard[0].callback == OnOrder(events[0])
      && if withPositions && IsTradeFill(events[0]) && PositionKnown(heard[0].accounts, events[0])
         then |heard| > 1 && heard[1].callback == OnPosition(events[0]) && Dispatches(heard[2..], events[1..], withPositions)
         else Dispatches(heard[1..], events[1..], withPositions)
  }

  lemma CancelKeepsPositions(a: Account, strategyId: string, clientOrderId: string, timestamp: string, name: string)
    ensures var after := Cancel(a, strategyId, clientOrderId, timestamp).account;
      && after.attachments.Keys == a.attachments.Keys
      && (name in a.attachments ==> after.attachments[name].positions == a.attachments[name].positions)
  {
    hide Find, CancelEvent;
  }

  lemma {:induction false} ActAllKnows<M>(w: World<M>, actions: seq<Action>, e: OrderEvent)
    ensures PositionKnown(ActAll(w, actions).accounts, e) <==> PositionKnown(w.accounts, e)
    decreases |actions|
  {
    hide Cancel;
    if actions != [] {
      var a := actions[0];
      if a.Withdraw? && a.accountId in w.accounts {
        CancelKeepsPositions(w.accounts[a.accountId], a.strategyId, a.clientOrderId, w.timestamp, e.strategyId);
      }
      ActAllKnows(Act(w, a), actions[1..], e);
    }
  }

  lemma TellKnows<M>(host: Host<M>, w: World<M>, c: Callback, e: OrderEvent)
    ensures PositionKnown(Tell(host, w, c).accounts, e) <==> PositionKnown(w.accounts, e)
  {
    hide PositionKnown;
    var reaction := host.react(w.memory, c, w.accounts);
    ActAllKnows(w.(memory := reaction.memory), reaction.actions, e);
  }

  lemma {:induction false} TellEventsReacts<M>(host: Host<M>, w: World<M>, events: seq<OrderEvent>, withPositions: bool)
    returns (heard: seq<Heard>)
    ensures var next := TellEvents(host, w, events, withPositions);
      Reacting(host, w, next, heard) && Waiting(w, next, heard) && Dispatches(heard, events, withPositions)
    decreases |events|
  {
    hide Reacting, Waiting, Tell, PositionKnown;
    if events == [] {
      heard := [];
      NothingHeard(host, w);
    } else {
      var told := Tell(host, w, OnOrder(events[0]));
      var h := TellReacts(host, w, OnOrder(events[0]));
      TellKnows(host, w, OnOrder(events[0]), events[0]);
      if withPositions && IsTradeFill(events[0]) && PositionKnown(told.accounts, events[0]) {
        var both := Tell(host, told, OnPosition(events[0]));
        var p := TellReacts(host, told, OnPosition(events[0]));
        ReactingOn(host, w, told, both, [h], [p]);
        var rest := TellEventsReacts(host, both, events[1..], withPositions);
        ReactingOn(host, w, both, TellEvents(host, both, events[1..], withPositions), [h] + [p], rest);
        heard := [h] + [p] + rest;
        assert heard[0] == h && heard[1] == p && heard[2..] == rest;
      } else {
        var rest := TellEventsReacts(host, told, events[1..], withPositions);
        ReactingOn(host, w, told, TellEvents(host, told, events[1..], withPositions), [h], rest);
        heard := [h] + rest;
        assert heard[0] == h && heard[1..] == rest;
      }
    }
  }

  /** Dispatching what waits: the events are told, and those raised meanwhile are dropped with them. */
  lemma DrainReacts<M>(host: Host<M>, w: World<M>, withPositions: bool) returns (heard: seq<Heard>)
    ensures var next := Drain(host, w, withPositions);
      && Reacting(host, w, next, heard) && Dispatches(heard, w.events, withPositions)
      && next.events == [] && next.day == w.day
  {
    hide Reacting, TellEvents, NothingPending, Dispatches;
    heard := TellEventsReacts(host, w, w.events, withPositions);
    if w.events == [] {
      NoneDispatched(heard, withPositions);
      heard := [];
      NothingHeard(host, w);
    } else {
      ReactingFrom(host, w, w, TellEvents(host, w, w.events, withPositions), Drain(host, w, withPositions), heard);
    }
  }

  lemma NoneDispatched(heard: seq<Heard>, withPositions: bool)
    ensures Dispatches(heard, [], withPositions) <==> heard == []
  {
  }
}
