/** Live startup: the persisted inventory is validated, handed to the strategies, and reconciled with the broker. */
module Reconciliation {
  import opened Numeric
  import opened Domain
  import opened Ledger
  import opened LiveFills
  import opened Inventory

  const EXTERNAL := "external_manual"

  /** `accumulate_position_state`. */
  function Accumulate(p: Position, q: Position): Position {
    Position(Blend(p.longToday, q.longToday), Blend(p.longYesterday, q.longYesterday),
             Blend(p.shortToday, q.shortToday), Blend(p.shortYesterday, q.shortYesterday))
  }

  predicate QuantitiesMatch(p: Position, q: Position) {
    forall m :: m in BUCKETS ==> Read(p, m) == Read(q, m)
  }

  lemma AccumulatedReading(p: Position, q: Position, m: Meter)
    ensures Read(Accumulate(p, q), m) == Read(p, m) + Read(q, m)
  {
    hide WeightedAveragePrice;
  }

  /** Accumulating adds up costs, bucket by bucket. */
  lemma AccumulateKeepsCost(p: Position, q: Position)
    requires p.Sound() && q.Sound()
    ensures var sum := Accumulate(p, q);
      && sum.Sound()
      && sum.longToday.Cost() == p.longToday.Cost() + q.longToday.Cost()
      && sum.longYesterday.Cost() == p.longYesterday.Cost() + q.longYesterday.Cost()
      && sum.shortToday.Cost() == p.shortToday.Cost() + q.shortToday.Cost()
      && sum.shortYesterday.Cost() == p.shortYesterday.Cost() + q.shortYesterday.Cost()
  {
    hide Blend, Bucket.Cost;
    BlendKeepsCost(p.longToday, q.longToday);
    BlendKeepsCost(p.longYesterday, q.longYesterday);
    BlendKeepsCost(p.shortToday, q.shortToday);
    BlendKeepsCost(p.shortYesterday, q.shortYesterday);
  }

  function AccountReadings(holdings: Holdings, accountId: string, i: string, m: Meter): map<Key, int> {
    map key | key in holdings && key.accountId == accountId :: Read(HeldAt(holdings[key], i), m)
  }

  /** What the attachments of an account hold together of an instrument, read on one bucket. */
  ghost function Together(holdings: Holdings, accountId: string, i: string, m: Meter): int {
    Total(AccountReadings(holdings, accountId, i, m))
  }

  predicate HasEntry(holdings: Holdings, accountId: string, i: string) {
    exists key :: key in holdings && key.accountId == accountId && i in holdings[key]
  }

  /** What the broker reports of one instrument. */
  datatype BrokerPosition = BrokerPosition(instrument: string, position: Position)

  /** The account's positions as hydrated: a repeated instrument keeps its last report. */
  function Reported(reports: seq<BrokerPosition>): Positions {
    if reports == [] then map[]
    else
      var last := reports[|reports| - 1];
      Reported(reports[..|reports| - 1])[last.instrument := last.position]
  }

  /** Persisted inventory of keys that no running strategy answers for. */
  function Detached(persisted: Holdings, attachments: Holdings): Holdings {
    persisted - attachments.Keys
  }

  /** Bucket by bucket, the positions are what the strategies and the detached inventory hold together. */
  ghost predicate AddsUp(positions: Positions, attachments: Holdings, persisted: Holdings, accountId: string) {
    forall i, m :: m in BUCKETS ==>
      Read(HeldAt(positions, i), m)
      == Together(attachments, accountId, i, m) + Together(Detached(persisted, attachments), accountId, i, m)
  }

  /** Before hydration the strategies and the detached inventory hold the persisted inventory. */
  ghost predicate Seeded(attachments: Holdings, persisted: Holdings, accountId: string) {
    forall i, m :: m in BUCKETS ==>
      Together(persisted, accountId, i, m)
      == Together(attachments, accountId, i, m) + Together(Detached(persisted, attachments), accountId, i, m)
  }

  /** `validate_detached_persisted_inventory` passes. */
  predicate DetachedIsExternal(persisted: Holdings, attachments: Holdings) {
    forall key :: key in Detached(persisted, attachments) ==> persisted[key] == map[] || key.strategyId == EXTERNAL
  }

  function SeedOf(persisted: Holdings, attachments: Holdings): Holdings {
    map key | key in attachments :: if key in persisted then persisted[key] else attachments[key]
  }

  function StrategiesOn(strategies: seq<Key>, accountId: string): seq<Key> {
    if strategies == [] then []
    else
      var last := strategies[|strategies| - 1];
      StrategiesOn(strategies[..|strategies| - 1], accountId) + (if last.accountId == accountId then [last] else [])
  }

  // ---- The loops ----

  /** Bucket by bucket, `sum` is `p` and `q` together. */
  ghost predicate Sums(sum: Position, p: Position, q: Position) {
    forall m :: m in BUCKETS ==> Read(sum, m) == Read(p, m) + Read(q, m)
  }

  lemma AccumulateSums(p: Position, q: Position)
    ensures Sums(Accumulate(p, q), p, q) && Sums(p, p, FLAT)
  {
    hide Accumulate;
    forall m ensures Read(Accumulate(p, q), m) == Read(p, m) + Read(q, m) {
      AccumulatedReading(p, q, m);
    }
  }

  /** The positions with the entries under `keys` accumulated into them. */
  function Merged(target: Positions, source: Positions, keys: set<string>): Positions
    requires keys <= source.Keys
  {
    map i | i in target.Keys + keys :: if i in keys then Accumulate(HeldAt(target, i), source[i]) else target[i]
  }

  lemma MergedStep(target: Positions, source: Positions, keys: set<string>, i: string)
    requires keys <= source.Keys && i in source && i !in keys
    ensures Merged(target, source, keys)[i := Accumulate(HeldAt(Merged(target, source, keys), i), source[i])]
         == Merged(target, source, keys + {i})
  {
    hide Accumulate;
    assert HeldAt(Merged(target, source, keys), i) == HeldAt(target, i);
  }

  lemma MergedStart(target: Positions, source: Positions)
    ensures Merged(target, source, {}) == target
  {
  }

  method AddPositions(target: Positions, source: Positions) returns (sum: Positions)
    ensures sum == Merged(target, source, source.Keys)
  {
    hide Accumulate, Merged, HeldAt;
    sum := target;
    var rest, done := source.Keys, {};
    MergedStart(target, source);
    while rest != {}
      invariant rest <= source.Keys && done == source.Keys - rest
      invariant sum == Merged(target, source, done)
      decreases |rest|
    {
      var i :| i in rest;
      MergedStep(target, source, done, i);
      sum := sum[i := Accumulate(HeldAt(sum, i), source[i])];
      rest, done := rest - {i}, done + {i};
    }
    assert done == source.Keys;
  }

  lemma MergedSums(target: Positions, source: Positions, i: string)
    ensures Sums(HeldAt(Merged(target, source, source.Keys), i), HeldAt(target, i), HeldAt(source, i))
  {
    hide Sums, Accumulate;
    AccumulateSums(HeldAt(target, i), HeldAt(source, i));
  }

  /** Bucket by bucket, `p` is what the attachments of the account hold together of `i`. */
  ghost predicate IsTogether(p: Position, holdings: Holdings, accountId: string, i: string) {
    forall m :: m in BUCKETS ==> Read(p, m) == Together(holdings, accountId, i, m)
  }

  /** The map names the instruments the account's attachments have entries of, and holds what they hold together. */
  ghost predicate IsAggregate(aggregate: Positions, holdings: Holdings, accountId: string) {
    && (forall i :: i in aggregate <==> HasEntry(holdings, accountId, i))
    && (forall i :: IsTogether(HeldAt(aggregate, i), holdings, accountId, i))
  }

  /** Aggregating one more attachment. */
  lemma OneMoreAggregated(holdings: Holdings, key: Key, positions: Positions, accountId: string, partial: Positions)
    requires key !in holdings && IsAggregate(partial, holdings, accountId)
    ensures IsAggregate(if key.accountId == accountId then Merged(partial, positions, positions.Keys) else partial,
                        holdings[key := positions], accountId)
  {
    hide HasEntry, IsTogether, Sums, HeldAt, Accumulate;
    var aggregate := if key.accountId == accountId then Merged(partial, positions, positions.Keys) else partial;
    forall i ensures IsTogether(HeldAt(aggregate, i), holdings[key := positions], accountId, i) {
      MergedSums(partial, positions, i);
      OneMoreHolder(holdings, key, positions, accountId, i, HeldAt(partial, i), HeldAt(aggregate, i));
    }
    forall i ensures i in aggregate <==> HasEntry(holdings[key := positions], accountId, i) {
      OneMoreEntry(holdings, key, positions, accountId, i);
    }
  }

  /** `aggregate_inventory_store_positions_for_account` and `aggregate_attachment_positions_for_account`. */
  method AggregateForAccount(holdings: Holdings, accountId: string) returns (aggregate: Positions)
    ensures IsAggregate(aggregate, holdings, accountId)
  {
    hide IsAggregate, Merged;
    aggregate := map[];
    var seen: Holdings, rest := map[], holdings.Keys;
    NoEntries(accountId);
    while rest != {}
      invariant rest <= holdings.Keys && seen.Keys == holdings.Keys - rest
      invariant forall key :: key in seen ==> seen[key] == holdings[key]
      invariant IsAggregate(aggregate, seen, accountId)
      decreases |rest|
    {
      var key :| key in rest;
      rest := rest - {key};
      ghost var before, partial := seen, aggregate;
      seen := seen[key := holdings[key]];
      if key.accountId == accountId {
        aggregate := AddPositions(aggregate, holdings[key]);
      }
      OneMoreAggregated(before, key, holdings[key], accountId, partial);
    }
    assert seen == holdings;
  }

  lemma NoEntries(accountId: string)
    ensures IsAggregate(map[], map[], accountId)
  {
    forall i, m ensures Together(map[], accountId, i, m) == 0 {
      assert AccountReadings(map[], accountId, i, m) == map[];
    }
  }

  lemma OneMoreEntry(holdings: Holdings, key: Key, positions: Positions, accountId: string, i: string)
    requires key !in holdings
    ensures HasEntry(holdings[key := positions], accountId, i)
       <==> HasEntry(holdings, accountId, i) || (key.accountId == accountId && i in positions)
  {
    var after := holdings[key := positions];
    if HasEntry(holdings, accountId, i) {
      var k :| k in holdings && k.accountId == accountId && i in holdings[k];
      assert k in after && i in after[k];
    }
    if key.accountId == accountId && i in positions {
      assert key in after && i in after[key];
    }
  }

  lemma TogetherUpdate(holdings: Holdings, key: Key, positions: Positions, accountId: string, i: string, m: Meter)
    ensures key.accountId == accountId ==>
      Together(holdings[key := positions], accountId, i, m)
      == Together(holdings, accountId, i, m) + Read(HeldAt(positions, i), m)
         - (if key in holdings then Read(HeldAt(holdings[key], i), m) else 0)
    ensures key.accountId != accountId ==>
      Together(holdings[key := positions], accountId, i, m) == Together(holdings, accountId, i, m)
  {
    hide Read, HeldAt;
    var was, now := AccountReadings(holdings, accountId, i, m),
                    AccountReadings(holdings[key := positions], accountId, i, m);
    if key.accountId == accountId {
      TotalUpdate(was, key, Read(HeldAt(positions, i), m));
      assert now == was[key := Read(HeldAt(positions, i), m)];
    } else {
      assert now == was;
    }
  }

  lemma OneMoreHolder(holdings: Holdings, key: Key, positions: Positions, accountId: string, i: string,
                      p: Position, q: Position)
    requires key !in holdings && IsTogether(p, holdings, accountId, i)
    requires if key.accountId == accountId then Sums(q, p, HeldAt(positions, i)) else q == p
    ensures IsTogether(q, holdings[key := positions], accountId, i)
  {
    hide Read, HeldAt, Together;
    forall m | m in BUCKETS ensures Read(q, m) == Together(holdings[key := positions], accountId, i, m) {
      TogetherUpdate(holdings, key, positions, accountId, i, m);
    }
  }

  /** `aggregate_positions_match`. */
  method PositionsMatch(left: Positions, right: Positions) returns (ok: bool)
    ensures ok <==> forall i :: QuantitiesMatch(HeldAt(left, i), HeldAt(right, i))
  {
    hide Read;
    var rest := left.Keys + right.Keys;
    ok := true;
    while rest != {}
      invariant rest <= left.Keys + right.Keys
      invariant ok
      invariant forall i :: i !in rest ==> QuantitiesMatch(HeldAt(left, i), HeldAt(right, i))
      decreases |rest|
    {
      var i :| i in rest;
      rest := rest - {i};
      if !QuantitiesMatch(HeldAt(left, i), HeldAt(right, i)) {
        return false;
      }
    }
  }

  // ---- Startup ----

  lemma {:induction false} StrategiesOnAll(strategies: seq<Key>, accountId: string)
    ensures forall key :: key in StrategiesOn(strategies, accountId) <==> key in strategies && key.accountId == accountId
  {
    if strategies != [] {
      StrategiesOnAll(strategies[..|strategies| - 1], accountId);
      assert strategies == strategies[..|strategies| - 1] + [strategies[|strategies| - 1]];
    }
  }

  lemma NothingHeld()
    ensures forall m :: Read(FLAT, m) == 0
  {
  }

  /** Fresh attachments: entries for the instruments their strategies trade, all of them flat. */
  predicate AllFlat(attachments: Holdings) {
    forall key, i :: key in attachments && i in attachments[key] ==> attachments[key][i] == FLAT
  }

  /** What a fresh attachment is handed is what the store holds under its key. */
  lemma SeededReadings(persisted: Holdings, attachments: Holdings, accountId: string, i: string, m: Meter)
    requires AllFlat(attachments)
    ensures var all, taken :=
        AccountReadings(persisted, accountId, i, m), AccountReadings(SeedOf(persisted, attachments), accountId, i, m);
      && (forall key :: key in taken && key in persisted ==> key in all && taken[key] == all[key])
      && (forall key :: key in taken && key !in persisted ==> taken[key] == 0)
      && (forall key :: key in all && key in attachments ==> key in taken)
  {
    hide Read;
    NothingHeld();
  }

  /** Handing the persisted inventory to the strategies loses nothing: what no strategy takes over stays detached. */
  lemma SeedingKeepsInventory(persisted: Holdings, attachments: Holdings, accountId: string)
    requires AllFlat(attachments)
    ensures Seeded(SeedOf(persisted, attachments), persisted, accountId)
  {
    hide Read, HeldAt;
    var seeded := SeedOf(persisted, attachments);
    assert seeded.Keys == attachments.Keys;
    forall i, m | m in BUCKETS
      ensures Together(persisted, accountId, i, m)
           == Together(seeded, accountId, i, m) + Together(Detached(persisted, seeded), accountId, i, m) {
      SeedingSplits(persisted, attachments, accountId, i, m);
    }
  }

  lemma SeedingSplits(persisted: Holdings, attachments: Holdings, accountId: string, i: string, m: Meter)
    requires AllFlat(attachments)
    ensures var seeded := SeedOf(persisted, attachments);
      Together(persisted, accountId, i, m)
      == Together(seeded, accountId, i, m) + Together(Detached(persisted, seeded), accountId, i, m)
  {
    hide Read, HeldAt, SeedOf;
    var seeded := SeedOf(persisted, attachments);
    SeedHasTheSameKeys(persisted, attachments);
    var all, taken := AccountReadings(persisted, accountId, i, m), AccountReadings(seeded, accountId, i, m);
    SeededReadings(persisted, attachments, accountId, i, m);
    TakenAndLeft(all, taken, attachments.Keys);
    assert all - attachments.Keys == AccountReadings(Detached(persisted, seeded), accountId, i, m);
  }

  lemma TakenAndLeft(all: map<Key, int>, taken: map<Key, int>, keys: set<Key>)
    requires taken.Keys <= keys && all.Keys * keys <= taken.Keys
    requires forall key :: key in taken ==> taken[key] == if key in all then all[key] else 0
    ensures Total(all) == Total(taken) + Total(all - keys)
  {
    TotalSplit(all, keys);
    TotalSplit(taken, all.Keys);
    assert (map key | key in all && key in keys :: all[key]) == (map key | key in taken && key in all.Keys :: taken[key]);
    TotalOfZeros(taken - all.Keys);
  }

  lemma SeedHasTheSameKeys(persisted: Holdings, attachments: Holdings)
    ensures SeedOf(persisted, attachments).Keys == attachments.Keys
  {
  }

  /** An account without entries holds nothing. */
  lemma EmptyHoldsNothing(holdings: Holdings, accountId: string, i: string, m: Meter)
    requires !HasEntry(holdings, accountId, i)
    ensures Together(holdings, accountId, i, m) == 0
  {
    hide Read;
    NothingHeld();
    forall key | key in holdings && key.accountId == accountId ensures i !in holdings[key] {
    }
    TotalOfZeros(AccountReadings(holdings, accountId, i, m));
  }

  lemma DetachedHasNoMore(persisted: Holdings, attachments: Holdings, accountId: string, i: string)
    requires HasEntry(Detached(persisted, attachments), accountId, i)
    ensures HasEntry(persisted, accountId, i)
  {
    var key :| key in Detached(persisted, attachments) && key.accountId == accountId
               && i in Detached(persisted, attachments)[key];
    assert key in persisted && i in persisted[key];
  }

  /** The single strategy of an account takes over what the broker reports. */
  function TakenOver(was: Positions, reported: Positions): Positions {
    map i | i in was.Keys + reported.Keys :: if i in reported then reported[i] else FLAT
  }

  lemma SoleHolder(attachments: Holdings, accountId: string, sole: Key, i: string, m: Meter)
    requires sole in attachments && sole.accountId == accountId
    requires forall key :: key in attachments && key.accountId == accountId ==> key == sole
    ensures Together(attachments, accountId, i, m) == Read(HeldAt(attachments[sole], i), m)
  {
    hide Read, HeldAt;
    var all := AccountReadings(attachments, accountId, i, m);
    TotalRemove(all, sole);
    assert all - {sole} == map[];
  }

  lemma TakingOverAddsUp(reported: Positions, attachments: Holdings, persisted: Holdings, accountId: string, sole: Key)
    requires sole in attachments && sole.accountId == accountId
    requires forall key :: key in attachments && key.accountId == accountId ==> key == sole
    requires forall i :: !HasEntry(persisted, accountId, i)
    ensures AddsUp(reported, attachments[sole := TakenOver(attachments[sole], reported)], persisted, accountId)
  {
    hide Read, Together, HasEntry;
    var after := attachments[sole := TakenOver(attachments[sole], reported)];
    assert Detached(persisted, after) == Detached(persisted, attachments);
    forall i, m | m in BUCKETS
      ensures Read(HeldAt(reported, i), m)
           == Together(after, accountId, i, m) + Together(Detached(persisted, after), accountId, i, m) {
      SoleHolder(after, accountId, sole, i, m);
      if HasEntry(Detached(persisted, after), accountId, i) {
        DetachedHasNoMore(persisted, after, accountId, i);
      }
      EmptyHoldsNothing(Detached(persisted, after), accountId, i, m);
    }
  }

  lemma MatchingAddsUp(reported: Positions, attachments: Holdings, persisted: Holdings, accountId: string,
                       aggregate: Positions)
    requires Seeded(attachments, persisted, accountId)
    requires IsAggregate(aggregate, persisted, accountId)
    requires forall i :: QuantitiesMatch(HeldAt(aggregate, i), HeldAt(reported, i))
    ensures AddsUp(reported, attachments, persisted, accountId)
  {
    hide Read, HeldAt, Together, Detached, HasEntry;
    forall i, m | m in BUCKETS
      ensures Read(HeldAt(reported, i), m)
           == Together(attachments, accountId, i, m) + Together(Detached(persisted, attachments), accountId, i, m) {
      assert IsTogether(HeldAt(aggregate, i), persisted, accountId, i);
      assert QuantitiesMatch(HeldAt(aggregate, i), HeldAt(reported, i));
    }
  }

  lemma NothingReportedAddsUp(attachments: Holdings, persisted: Holdings, accountId: string)
    requires Seeded(attachments, persisted, accountId) && forall i :: !HasEntry(persisted, accountId, i)
    ensures AddsUp(map[], attachments, persisted, accountId)
  {
    hide Read, Together, Detached;
    NothingHeld();
    forall i, m | m in BUCKETS
      ensures 0 == Together(attachments, accountId, i, m) + Together(Detached(persisted, attachments), accountId, i, m) {
      EmptyHoldsNothing(persisted, accountId, i, m);
    }
  }

  /** Attachments of other accounts do not matter to an account. */
  lemma OtherAccountsDoNotMatter(was: Holdings, now: Holdings, persisted: Holdings, accountId: string)
    requires was.Keys == now.Keys
    requires forall key :: key in was && key.accountId == accountId ==> now[key] == was[key]
    ensures Seeded(was, persisted, accountId) ==> Seeded(now, persisted, accountId)
    ensures forall p :: AddsUp(p, was, persisted, accountId) ==> AddsUp(p, now, persisted, accountId)
  {
    hide Read, HeldAt;
    forall i, m ensures Together(was, accountId, i, m) == Together(now, accountId, i, m) {
      assert AccountReadings(was, accountId, i, m) == AccountReadings(now, accountId, i, m);
    }
    assert Detached(persisted, was) == Detached(persisted, now);
  }

  /** `seed_attachment_telemetry_from_inventory_store`. */
  method SeedFromStore(persisted: Holdings, attachments: Holdings) returns (seeded: Holdings)
    ensures seeded == SeedOf(persisted, attachments)
  {
    var rest := attachments.Keys;
    seeded := attachments;
    while rest != {}
      invariant rest <= attachments.Keys == seeded.Keys
      invariant forall key :: key in rest ==> seeded[key] == attachments[key]
      invariant forall key :: key in seeded && key !in rest ==>
        seeded[key] == if key in persisted then persisted[key] else attachments[key]
      decreases |rest|
    {
      var key :| key in rest;
      rest := rest - {key};
      if key in persisted {
        seeded := seeded[key := persisted[key]];
      }
    }
  }

  /** What the broker reports can be explained: by the inventory on file, bucket by bucket, or, where none is on file, by
      nothing being held or by a sole strategy holding it all. */
  ghost predicate Reconcilable(persisted: Holdings, accountId: string, reports: seq<BrokerPosition>, strategies: seq<Key>) {
    if exists i :: HasEntry(persisted, accountId, i)
    then reports != [] && forall i :: IsTogether(HeldAt(Reported(reports), i), persisted, accountId, i)
    else reports == [] || |StrategiesOn(strategies, accountId)| == 1
  }

  lemma MatchIsTogether(aggregate: Positions, reported: Positions, persisted: Holdings, accountId: string)
    requires IsAggregate(aggregate, persisted, accountId)
    ensures (forall i :: QuantitiesMatch(HeldAt(aggregate, i), HeldAt(reported, i)))
       <==> (forall i :: IsTogether(HeldAt(reported, i), persisted, accountId, i))
  {
    hide Read, HeldAt, Together, HasEntry;
    forall i ensures QuantitiesMatch(HeldAt(aggregate, i), HeldAt(reported, i))
      <==> IsTogether(HeldAt(reported, i), persisted, accountId, i) {
      assert IsTogether(HeldAt(aggregate, i), persisted, accountId, i);
    }
  }

  lemma EmptyAggregate(aggregate: Positions, persisted: Holdings, accountId: string)
    requires IsAggregate(aggregate, persisted, accountId)
    ensures aggregate == map[] <==> forall i :: !HasEntry(persisted, accountId, i)
  {
    hide HasEntry, IsTogether;
    if aggregate != map[] {
      var i :| i in aggregate;
      assert HasEntry(persisted, accountId, i);
    }
  }

  /** The account, if the broker answered for it, has the reported positions, and they add up. */
  ghost predicate Hydrated(accounts: map<string, Positions>, attachments: Holdings, persisted: Holdings,
                           accountId: string, answer: Option<seq<BrokerPosition>>)
  {
    answer.Some? ==>
      && accountId in accounts && accounts[accountId] == Reported(answer.value)
      && AddsUp(accounts[accountId], attachments, persisted, accountId)
  }

  /** Every account the broker answered for can be reconciled. */
  ghost predicate AllReconcilable(persisted: Holdings, accountIds: set<string>,
                                  answers: map<string, Option<seq<BrokerPosition>>>, strategies: seq<Key>)
    requires accountIds <= answers.Keys
  {
    forall accountId :: accountId in accountIds && answers[accountId].Some? ==>
      Reconcilable(persisted, accountId, answers[accountId].value, strategies)
  }

  lemma IsHydrated(accounts: map<string, Positions>, attachments: Holdings, persisted: Holdings,
                   accountId: string, answer: Option<seq<BrokerPosition>>)
    requires answer.Some? && accountId in accounts && accounts[accountId] == Reported(answer.value)
    requires AddsUp(accounts[accountId], attachments, persisted, accountId)
    ensures Hydrated(accounts, attachments, persisted, accountId, answer)
  {
  }

  lemma NotAsked(accounts: map<string, Positions>, attachments: Holdings, persisted: Holdings, accountId: string)
    ensures Hydrated(accounts, attachments, persisted, accountId, None)
  {
  }

  lemma OthersStayHydrated(accounts: map<string, Positions>, now: map<string, Positions>, was: Holdings, next: Holdings,
                           persisted: Holdings, accountId: string, answer: Option<seq<BrokerPosition>>)
    requires was.Keys == next.Keys && (accountId in accounts ==> accountId in now && now[accountId] == accounts[accountId])
    requires forall key :: key in was && key.accountId == accountId ==> next[key] == was[key]
    ensures Seeded(was, persisted, accountId) ==> Seeded(next, persisted, accountId)
    ensures Hydrated(accounts, was, persisted, accountId, answer) ==> Hydrated(now, next, persisted, accountId, answer)
  {
    hide Seeded, AddsUp, Reported;
    OtherAccountsDoNotMatter(was, next, persisted, accountId);
  }

  class LiveStartup {
    var accounts: map<string, Positions>
    var attachments: Holdings
    const strategies: seq<Key>

    /** Each configured strategy gets a fresh attachment, with a flat position for each instrument it trades. */
    constructor (accountIds: set<string>, configured: seq<Key>, traded: map<Key, set<string>>)
      requires forall key :: key in configured ==> key in traded
      ensures accounts.Keys == accountIds && strategies == configured
      ensures attachments.Keys == (set key | key in configured) && AllFlat(attachments)
      ensures forall key :: key in attachments ==> attachments[key].Keys == traded[key]
    {
      accounts := map accountId | accountId in accountIds :: map[];
      attachments := map key | key in configured :: map i | i in traded[key] :: FLAT;
      strategies := configured;
    }

    method ValidateDetached(persisted: Holdings) returns (thrown: bool)
      ensures thrown == !DetachedIsExternal(persisted, attachments)
    {
      var rest := persisted.Keys;
      while rest != {}
        invariant rest <= persisted.Keys
        invariant forall key :: key in Detached(persisted, attachments) && key !in rest
                    ==> persisted[key] == map[] || key.strategyId == EXTERNAL
        decreases |rest|
      {
        var key :| key in rest;
        rest := rest - {key};
        if persisted[key] != map[] && key.strategyId != EXTERNAL && key !in attachments {
          return true;
        }
      }
      thrown := false;
    }

    /** One account of `hydrate_live_positions_from_broker`, whose position query succeeded. */
    method HydrateAccount(accountId: string, reports: seq<BrokerPosition>, persisted: Holdings) returns (thrown: bool)
      requires attachments.Keys == (set key | key in strategies)
      requires Seeded(attachments, persisted, accountId)
      modifies this
      ensures thrown <==> !Reconcilable(persisted, accountId, reports, strategies)
      ensures !thrown ==> accounts == old(accounts)[accountId := Reported(reports)]
      ensures !thrown ==> AddsUp(Reported(reports), attachments, persisted, accountId)
      ensures attachments.Keys == old(attachments.Keys)
      ensures forall key :: key in attachments && key.accountId != accountId ==> attachments[key] == old(attachments)[key]
    {
      hide Seeded, AddsUp, TakenOver, IsTogether, QuantitiesMatch, HasEntry, IsAggregate;
      var reported: Positions := map[];
      for n := 0 to |reports|
        invariant reported == Reported(reports[..n])
      {
        assert reports[..n + 1][..n] == reports[..n];
        reported := reported[reports[n].instrument := reports[n].position];
      }
      assert reports[..|reports|] == reports;
      accounts := accounts[accountId := reported];
      var aggregate := AggregateForAccount(persisted, accountId);
      EmptyAggregate(aggregate, persisted, accountId);
      if reports == [] {
        thrown := aggregate != map[];
        if !thrown {
          NothingReportedAddsUp(attachments, persisted, accountId);
        }
        return;
      }
      if aggregate != map[] {
        var ok := PositionsMatch(aggregate, reported);
        MatchIsTogether(aggregate, reported, persisted, accountId);
        if ok {
          MatchingAddsUp(reported, attachments, persisted, accountId, aggregate);
        }
        return !ok;
      }
      var own := StrategiesOn(strategies, accountId);
      StrategiesOnAll(strategies, accountId);
      if |own| != 1 {
        return true;
      }
      var sole := own[0];
      assert forall key :: key in attachments && key.accountId == accountId ==> key == sole;
      TakingOverAddsUp(reported, attachments, persisted, accountId, sole);
      attachments := attachments[sole := TakenOver(attachments[sole], reported)];
      thrown := false;
    }

    /** `hydrate_live_positions_from_broker`; an account without an answer is one whose query failed. */
    method HydrateFromBroker(answers: map<string, Option<seq<BrokerPosition>>>, persisted: Holdings)
      returns (thrown: bool)
      requires attachments.Keys == (set key | key in strategies) && accounts.Keys <= answers.Keys
      requires forall accountId :: accountId in accounts ==> Seeded(attachments, persisted, accountId)
      modifies this
      ensures attachments.Keys == old(attachments.Keys)
      ensures thrown <==> !AllReconcilable(persisted, old(accounts.Keys), answers, strategies)
      ensures !thrown ==> forall accountId :: accountId in old(accounts) ==>
        Hydrated(accounts, attachments, persisted, accountId, answers[accountId])
    {
      hide Seeded, AddsUp, Reported, Hydrated, Reconcilable;
      var rest := accounts.Keys;
      while rest != {}
        invariant rest <= accounts.Keys == old(accounts.Keys) && attachments.Keys == old(attachments.Keys)
        invariant forall accountId :: accountId in rest ==> Seeded(attachments, persisted, accountId)
        invariant forall accountId :: accountId in accounts && accountId !in rest ==>
          Hydrated(accounts, attachments, persisted, accountId, answers[accountId])
        invariant AllReconcilable(persisted, old(accounts.Keys) - rest, answers, strategies)
        decreases |rest|
      {
        var accountId :| accountId in rest;
        rest := rest - {accountId};
        if answers[accountId].Some? {
          ghost var before, earlier := attachments, accounts;
          thrown := HydrateAccount(accountId, answers[accountId].value, persisted);
          if thrown {
            return;
          }
          forall other | other in accounts && other != accountId
            ensures Seeded(before, persisted, other) ==> Seeded(attachments, persisted, other)
            ensures Hydrated(earlier, before, persisted, other, answers[other])
                ==> Hydrated(accounts, attachments, persisted, other, answers[other]) {
            OthersStayHydrated(earlier, accounts, before, attachments, persisted, other, answers[other]);
          }
          IsHydrated(accounts, attachments, persisted, accountId, answers[accountId]);
        } else {
          NotAsked(accounts, attachments, persisted, accountId);
        }
      }
      thrown := false;
    }

    /** The inventory part of `run_live`: adjust, validate, seed, hydrate. When nothing throws, every account the broker
        answered for is held, bucket by bucket, by its strategies and the inventory parked under external_manual. */
    method Start(store: PersistedInventoryStore, adjustments: seq<Adjustment>,
                 answers: map<string, Option<seq<BrokerPosition>>>) returns (thrown: bool)
      requires attachments.Keys == (set key | key in strategies) && accounts.Keys <= answers.Keys
      requires AllFlat(attachments)
      modifies this, store
      ensures thrown <==>
        var adjusted := ApplyAll(old(store.Value()), adjustments);
        adjusted.Thrown? || !DetachedIsExternal(adjusted.value.holdings, old(attachments))
        || !AllReconcilable(adjusted.value.holdings, old(accounts.Keys), answers, strategies)
      ensures !thrown ==> ApplyAll(old(store.Value()), adjustments) == Done(store.Value())
      ensures !thrown ==> DetachedIsExternal(store.holdings, attachments)
      ensures !thrown ==> forall accountId :: accountId in old(accounts) ==>
        Hydrated(accounts, attachments, store.holdings, accountId, answers[accountId])
    {
      hide ApplyAll, Seeded, Hydrated, AllReconcilable;
      thrown := store.ApplyManualAdjustments(adjustments);
      if thrown {
        return;
      }
      thrown := ValidateDetached(store.holdings);
      if thrown {
        return;
      }
      ghost var unseeded := attachments;
      forall accountId ensures Seeded(SeedOf(store.holdings, unseeded), store.holdings, accountId) {
        SeedingKeepsInventory(store.holdings, unseeded, accountId);
      }
      attachments := SeedFromStore(store.holdings, attachments);
      assert attachments.Keys == unseeded.Keys;
      assert DetachedIsExternal(store.holdings, attachments);
      thrown := HydrateFromBroker(answers, store.holdings);
    }
  }
}
