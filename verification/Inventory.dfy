/** The persisted per-strategy inventory and the manual adjustments applied to it at startup. */
module Inventory {
  import opened Numeric
  import opened Text
  import opened Domain
  import opened Ledger
  import opened LiveFills

  /** An attachment key, `strategy::account`. */
  datatype Key = Key(strategyId: string, accountId: string)

  type Holdings = map<Key, Positions>

  datatype BucketChange = BucketChange(delta: int, averagePrice: Option<real>)

  datatype Adjustment = Adjustment(
    id: string, key: Key, instrument: string,
    longToday: BucketChange, longYesterday: BucketChange, shortToday: BucketChange, shortYesterday: BucketChange)
  {
    function Change(m: Meter): int {
      match m
      case LongToday => longToday.delta
      case LongYesterday => longYesterday.delta
      case ShortToday => shortToday.delta
      case ShortYesterday => shortYesterday.delta
      case LongTotal => longToday.delta + longYesterday.delta
      case ShortTotal => shortToday.delta + shortYesterday.delta
    }
  }

  datatype Store = Store(holdings: Holdings, applied: map<string, Adjustment>)

  /** A startup step either completes or throws. */
  datatype Outcome<+T> = Done(value: T) | Thrown

  /** `apply_inventory_bucket_adjustment`. */
  function AdjustBucket(b: Bucket, c: BucketChange): Outcome<Bucket> {
    if c.delta == 0 then Done(b)
    else if c.delta > 0 then
      if c.averagePrice.None? || c.averagePrice.value < 0.0 then Thrown
      else Done(Blend(b, Bucket(c.delta, c.averagePrice.value)))
    else if b.quantity + c.delta < 0 then Thrown
    else Done(Bucket(b.quantity + c.delta, if b.quantity + c.delta == 0 then 0.0 else b.price))
  }

  function AdjustPosition(p: Position, a: Adjustment): Outcome<Position> {
    var longToday, longYesterday := AdjustBucket(p.longToday, a.longToday), AdjustBucket(p.longYesterday, a.longYesterday);
    var shortToday, shortYesterday :=
      AdjustBucket(p.shortToday, a.shortToday), AdjustBucket(p.shortYesterday, a.shortYesterday);
    if longToday.Thrown? || longYesterday.Thrown? || shortToday.Thrown? || shortYesterday.Thrown? then Thrown
    else Done(Position(longToday.value, longYesterday.value, shortToday.value, shortYesterday.value))
  }

  predicate IsFlat(p: Position) {
    forall m :: m in BUCKETS ==> Read(p, m) == 0
  }

  predicate SameInstrument(a: string, b: string) {
    Upper(a) == Upper(b)
  }

  lemma SameInSmallLetters(a: string, b: string)
    ensures SameInstrument(a, b) <==> Lower(a) == Lower(b)
  {
    hide Upper, Lower;
    SameLetters(a, b);
  }

  /** The first entry, in the order of the map, that names the instrument up to letter case. */
  ghost predicate IsFirstMatch(positions: Positions, instrument: string, k: string) {
    && k in positions && SameInstrument(k, instrument)
    && (forall j :: j in positions && SameInstrument(j, instrument) ==> !Before(j, k))
  }

  ghost function Resolved(positions: Positions, instrument: string): string {
    if exists k :: IsFirstMatch(positions, instrument, k)
    then var k :| IsFirstMatch(positions, instrument, k); k
    else instrument
  }

  lemma FirstMatchIsUnique(positions: Positions, instrument: string, j: string, k: string)
    requires IsFirstMatch(positions, instrument, j) && IsFirstMatch(positions, instrument, k)
    ensures j == k
  {
    BeforeIsTotal(j, k);
  }

  /** Writing an entry, where a flat one is dropped. */
  function WithEntry(positions: Positions, i: string, p: Position): Positions {
    if IsFlat(p) then positions - {i} else positions[i := p]
  }

  /** Writing an attachment's positions, where an empty map is dropped. */
  function WithPositions(holdings: Holdings, key: Key, positions: Positions): Holdings {
    if positions == map[] then holdings - {key} else holdings[key := positions]
  }

  function PositionsOf(holdings: Holdings, key: Key): Positions {
    if key in holdings then holdings[key] else map[]
  }

  /** One adjustment of `apply_manual_inventory_adjustments`. */
  ghost function ApplyOne(s: Store, a: Adjustment): Outcome<Store> {
    if a.id in s.applied then Done(s)
    else
      var positions := PositionsOf(s.holdings, a.key);
      var i := Resolved(positions, a.instrument);
      var p := AdjustPosition(HeldAt(positions, i), a);
      if p.Thrown? then Thrown
      else Done(Store(WithPositions(s.holdings, a.key, WithEntry(positions, i, p.value)), s.applied[a.id := a]))
  }

  /** `apply_manual_inventory_adjustments`. */
  ghost function ApplyAll(s: Store, adjustments: seq<Adjustment>): Outcome<Store> {
    if adjustments == [] then Done(s)
    else
      var before := ApplyAll(s, adjustments[..|adjustments| - 1]);
      if before.Thrown? then Thrown else ApplyOne(before.value, adjustments[|adjustments| - 1])
  }

  method FindInstrument(positions: Positions, instrument: string) returns (k: string)
    ensures k == Resolved(positions, instrument)
    ensures k in positions <==> exists j :: j in positions && SameInstrument(j, instrument)
  {
    var rest, found := positions.Keys, None;
    while rest != {}
      invariant rest <= positions.Keys
      invariant found.None? ==> forall j :: j in positions && SameInstrument(j, instrument) ==> j in rest
      invariant found.Some? ==> found.value in positions && SameInstrument(found.value, instrument)
      invariant forall j :: found.Some? && j in positions && j !in rest && SameInstrument(j, instrument)
                  ==> !Before(j, found.value)
      decreases |rest|
    {
      var j :| j in rest;
      rest := rest - {j};
      if SameInstrument(j, instrument) {
        if found.None? {
          BeforeIsTotal(j, j);
          found := Some(j);
        } else if Before(j, found.value) {
          forall l | l in positions && l !in rest && SameInstrument(l, instrument) ensures !Before(l, j) {
            BeforeIsTotal(l, j);
            if Before(l, j) {
              BeforeIsTransitive(l, j, found.value);
            }
          }
          found := Some(j);
        }
      }
    }
    if found.Some? {
      k := found.value;
      assert IsFirstMatch(positions, instrument, k);
      FirstMatchIsUnique(positions, instrument, k, Resolved(positions, instrument));
    } else {
      k := instrument;
    }
  }

  class PersistedInventoryStore {
    var holdings: Holdings
    var applied: map<string, Adjustment>

    constructor (s: Store)
      ensures Value() == s
    {
      holdings, applied := s.holdings, s.applied;
    }

    function Value(): Store
      reads this
    {
      Store(holdings, applied)
    }

    method ApplyAdjustment(a: Adjustment) returns (thrown: bool)
      modifies this
      ensures thrown == ApplyOne(old(Value()), a).Thrown?
      ensures !thrown ==> Value() == ApplyOne(old(Value()), a).value
    {
      hide Resolved, AdjustPosition, IsFlat;
      if a.id in applied {
        return false;
      }
      var positions := PositionsOf(holdings, a.key);
      var i := FindInstrument(positions, a.instrument);
      if i !in positions {
        positions := positions[i := FLAT];
      }
      var p := AdjustPosition(positions[i], a);
      if p.Thrown? {
        return true;
      }
      positions := positions[i := p.value];
      if IsFlat(p.value) {
        positions := positions - {i};
      }
      assert positions == WithEntry(PositionsOf(holdings, a.key), i, p.value);
      if positions == map[] {
        holdings := holdings - {a.key};
      } else {
        holdings := holdings[a.key := positions];
      }
      applied := applied[a.id := a];
      thrown := false;
    }

    method ApplyManualAdjustments(adjustments: seq<Adjustment>) returns (thrown: bool)
      modifies this
      ensures thrown == ApplyAll(old(Value()), adjustments).Thrown?
      ensures !thrown ==> Value() == ApplyAll(old(Value()), adjustments).value
    {
      hide ApplyOne;
      thrown := false;
      for n := 0 to |adjustments|
        invariant ApplyAll(old(Value()), adjustments[..n]) == Done(Value())
      {
        assert adjustments[..n + 1][..n] == adjustments[..n];
        thrown := ApplyAdjustment(adjustments[n]);
        if thrown {
          ThrownStaysThrown(old(Value()), adjustments, n + 1);
          return;
        }
      }
      assert adjustments[..|adjustments|] == adjustments;
    }
  }

  lemma {:induction false} ThrownStaysThrown(s: Store, adjustments: seq<Adjustment>, n: nat)
    requires n <= |adjustments| && ApplyAll(s, adjustments[..n]).Thrown?
    ensures ApplyAll(s, adjustments).Thrown?
  {
    hide ApplyOne;
    if n == |adjustments| {
      assert adjustments[..n] == adjustments;
    } else {
      var front := adjustments[..|adjustments| - 1];
      assert front[..n] == adjustments[..n];
      ThrownStaysThrown(s, front, n);
    }
  }

  // ---- What adjustments do to the inventory ----

  lemma AdjustedReading(p: Position, a: Adjustment, m: Meter)
    requires AdjustPosition(p, a).Done?
    ensures Read(AdjustPosition(p, a).value, m) == Read(p, m) + a.Change(m)
    ensures p.NonNegative() ==> AdjustPosition(p, a).value.NonNegative()
  {
    hide WeightedAveragePrice;
  }

  /** The entries of an attachment that name an instrument up to letter case. */
  function Entries(positions: Positions, instrument: string, m: Meter): map<string, int> {
    map i | i in positions && SameInstrument(i, instrument) :: Read(positions[i], m)
  }

  /** What an attachment holds of an instrument, read on one bucket. */
  ghost function Held(holdings: Holdings, key: Key, instrument: string, m: Meter): int {
    Total(Entries(PositionsOf(holdings, key), instrument, m))
  }

  lemma WritingMovesEntry(positions: Positions, i: string, p: Position, instrument: string, m: Meter)
    requires m in BUCKETS
    ensures Total(Entries(WithEntry(positions, i, p), instrument, m))
         == Total(Entries(positions, instrument, m))
            + (if SameInstrument(i, instrument) then Read(p, m) - Read(HeldAt(positions, i), m) else 0)
  {
    hide SameInstrument, Read, IsFlat;
    var was, now := Entries(positions, instrument, m), Entries(WithEntry(positions, i, p), instrument, m);
    FlatReadsZero(p, m);
    if SameInstrument(i, instrument) {
      TotalUpdate(was, i, Read(p, m));
      var updated := was[i := Read(p, m)];
      if IsFlat(p) {
        assert now == updated - {i};
        TotalRemove(updated, i);
      } else {
        assert now == updated;
      }
    } else {
      assert now == was;
    }
  }

  lemma FlatReadsZero(p: Position, m: Meter)
    requires m in BUCKETS
    ensures Read(FLAT, m) == 0 && (IsFlat(p) ==> Read(p, m) == 0)
  {
  }

  /** An adjustment moves its own attachment, instrument and bucket by its change, and nothing else. */
  lemma AdjustmentMoves(s: Store, a: Adjustment, key: Key, instrument: string, m: Meter)
    requires a.id !in s.applied && ApplyOne(s, a).Done? && m in BUCKETS
    ensures Held(ApplyOne(s, a).value.holdings, key, instrument, m)
         == Held(s.holdings, key, instrument, m)
            + (if key == a.key && SameInstrument(a.instrument, instrument) then a.Change(m) else 0)
  {
    hide AdjustPosition, IsFlat, Read, Entries, Adjustment.Change, Resolved, WithEntry, Upper, HeldAt;
    var positions := PositionsOf(s.holdings, a.key);
    var i := Resolved(positions, a.instrument);
    var p := AdjustPosition(HeldAt(positions, i), a).value;
    ResolvedIsSame(positions, a.instrument);
    AdjustedReading(HeldAt(positions, i), a, m);
    WritingMovesEntry(positions, i, p, instrument, m);
    var after := ApplyOne(s, a).value.holdings;
    assert PositionsOf(after, a.key) == WithEntry(positions, i, p);
    assert key != a.key ==> PositionsOf(after, key) == PositionsOf(s.holdings, key);
  }

  lemma ResolvedIsSame(positions: Positions, instrument: string)
    ensures SameInstrument(Resolved(positions, instrument), instrument)
  {
    hide Upper, Before;
  }

  /** Lots cannot be added without a price, or at a negative one, nor more taken than there are. */
  predicate Refused(b: Bucket, c: BucketChange) {
    if c.delta > 0 then c.averagePrice.None? || c.averagePrice.value < 0.0 else c.delta < 0 && -c.delta > b.quantity
  }

  predicate AnyRefused(p: Position, a: Adjustment) {
    Refused(p.longToday, a.longToday) || Refused(p.longYesterday, a.longYesterday)
    || Refused(p.shortToday, a.shortToday) || Refused(p.shortYesterday, a.shortYesterday)
  }

  /** Lots added cost the price they are added at; lots taken leave with their average cost. */
  predicate Costs(b: Bucket, c: BucketChange, after: Bucket) {
    && after.quantity == b.quantity + c.delta
    && (b.Sound() ==>
          && after.Sound()
          && after.Cost() == b.Cost() + Notional(c.delta, if c.delta > 0 && c.averagePrice.Some? then c.averagePrice.value
                                                          else b.price))
  }

  lemma AdjustedCost(b: Bucket, c: BucketChange)
    ensures AdjustBucket(b, c).Thrown? <==> Refused(b, c)
    ensures AdjustBucket(b, c).Done? ==> Costs(b, c, AdjustBucket(b, c).value)
  {
    hide Notional, WeightedAveragePrice;
    if AdjustBucket(b, c).Done? {
      if c.delta > 0 && b.Sound() {
        BlendKeepsCost(b, Bucket(c.delta, c.averagePrice.value));
      } else {
        NotionalSum(b.quantity, c.delta, b.price);
        NotionalSign(0, b.price);
        NotionalSign(0, 0.0);
      }
    }
  }

  /** An adjustment throws exactly if one of its changes is refused. Otherwise the entry it resolves to has its lots and
      costs changed bucket by bucket, and all other entries of the store stay. */
  lemma AdjustmentCosts(s: Store, a: Adjustment, key: Key, instrument: string)
    requires a.id !in s.applied
    ensures var i := Resolved(PositionsOf(s.holdings, a.key), a.instrument);
      var p := HeldAt(PositionsOf(s.holdings, a.key), i);
      && (ApplyOne(s, a).Thrown? <==> AnyRefused(p, a))
      && (ApplyOne(s, a).Done? ==>
            var holdings := ApplyOne(s, a).value.holdings;
            var after := HeldAt(PositionsOf(holdings, key), instrument);
            if key == a.key && instrument == i then
              p.Sound() ==> Costs(p.longToday, a.longToday, after.longToday)
                            && Costs(p.longYesterday, a.longYesterday, after.longYesterday)
                            && Costs(p.shortToday, a.shortToday, after.shortToday)
                            && Costs(p.shortYesterday, a.shortYesterday, after.shortYesterday)
            else after == HeldAt(PositionsOf(s.holdings, key), instrument))
  {
    hide AdjustBucket, Refused, Costs, Resolved, SameInstrument, IsFlat;
    var i := Resolved(PositionsOf(s.holdings, a.key), a.instrument);
    var p := HeldAt(PositionsOf(s.holdings, a.key), i);
    AdjustedCost(p.longToday, a.longToday);
    AdjustedCost(p.longYesterday, a.longYesterday);
    AdjustedCost(p.shortToday, a.shortToday);
    AdjustedCost(p.shortYesterday, a.shortYesterday);
    if AdjustPosition(p, a).Done? && p.Sound() && IsFlat(AdjustPosition(p, a).value) {
      SoundlyFlat(p, a);
    }
  }

  lemma SoundlyFlat(p: Position, a: Adjustment)
    requires p.Sound() && AdjustPosition(p, a).Done? && IsFlat(AdjustPosition(p, a).value)
    ensures AdjustPosition(p, a).value == FLAT
  {
    hide AdjustBucket, Refused;
    AdjustedCost(p.longToday, a.longToday);
    AdjustedCost(p.longYesterday, a.longYesterday);
    AdjustedCost(p.shortToday, a.shortToday);
    AdjustedCost(p.shortYesterday, a.shortYesterday);
  }

  predicate AllNonNegative(holdings: Holdings) {
    forall key :: key in holdings ==> forall i :: i in holdings[key] ==> holdings[key][i].NonNegative()
  }

  /** The store keeps no flat entry and no attachment without entries. */
  predicate Tidy(holdings: Holdings) {
    forall key :: key in holdings ==>
      holdings[key] != map[] && forall i :: i in holdings[key] ==> !IsFlat(holdings[key][i])
  }

  lemma ApplyOneIsSound(s: Store, a: Adjustment)
    requires ApplyOne(s, a).Done?
    ensures AllNonNegative(s.holdings) ==> AllNonNegative(ApplyOne(s, a).value.holdings)
    ensures Tidy(s.holdings) ==> Tidy(ApplyOne(s, a).value.holdings)
  {
    hide AdjustPosition, IsFlat, Resolved, Position.NonNegative;
    if a.id !in s.applied {
      var positions := PositionsOf(s.holdings, a.key);
      var p := HeldAt(positions, Resolved(positions, a.instrument));
      FlatIsNonNegative();
      AdjustedReading(p, a, LongToday);
    }
  }

  lemma FlatIsNonNegative()
    ensures FLAT.NonNegative()
  {
  }

  function Ids(adjustments: seq<Adjustment>): set<string> {
    set a | a in adjustments :: a.id
  }

  /** The adjustments of a list that are new: not applied before, and the first of the list with their id. */
  function FirstTime(applied: set<string>, adjustments: seq<Adjustment>): seq<Adjustment> {
    if adjustments == [] then []
    else
      var front, last := adjustments[..|adjustments| - 1], adjustments[|adjustments| - 1];
      FirstTime(applied, front) + (if last.id in applied || last.id in Ids(front) then [] else [last])
  }

  /** What a list of adjustments adds to one attachment, instrument and bucket. */
  function Moved(adjustments: seq<Adjustment>, key: Key, instrument: string, m: Meter): int {
    if adjustments == [] then 0
    else
      var a := adjustments[|adjustments| - 1];
      Moved(adjustments[..|adjustments| - 1], key, instrument, m)
      + (if key == a.key && SameInstrument(a.instrument, instrument) then a.Change(m) else 0)
  }

  lemma MovedByOneMore(news: seq<Adjustment>, a: Adjustment, key: Key, instrument: string, m: Meter)
    ensures Moved(news + [a], key, instrument, m)
         == Moved(news, key, instrument, m)
            + (if key == a.key && SameInstrument(a.instrument, instrument) then a.Change(m) else 0)
  {
    assert (news + [a])[..|news|] == news;
  }

  lemma OneMoreId(front: seq<Adjustment>, a: Adjustment)
    ensures Ids(front + [a]) == Ids(front) + {a.id}
  {
    assert forall b :: b in front + [a] <==> b in front || b == a;
  }

  /** A startup that does not throw marks its adjustments applied and leaves no bucket negative and no flat entry behind. */
  lemma {:induction false} AdjustmentsKeepTheStoreSound(s: Store, adjustments: seq<Adjustment>)
    requires ApplyAll(s, adjustments).Done?
    ensures var after := ApplyAll(s, adjustments).value;
      && after.applied.Keys == s.applied.Keys + Ids(adjustments)
      && (AllNonNegative(s.holdings) ==> AllNonNegative(after.holdings))
      && (Tidy(s.holdings) ==> Tidy(after.holdings))
  {
    hide AllNonNegative, Tidy, AdjustPosition, WithEntry, WithPositions, Ids, Resolved;
    if adjustments == [] {
      assert Ids([]) == {} by {
        NoIds();
      }
    } else {
      var front, last := adjustments[..|adjustments| - 1], adjustments[|adjustments| - 1];
      AdjustmentsKeepTheStoreSound(s, front);
      ApplyOneIsSound(ApplyAll(s, front).value, last);
      OneMoreId(front, last);
      assert adjustments == front + [last];
    }
  }

  lemma NoIds()
    ensures Ids([]) == {}
  {
  }

  /** A startup that does not throw moves every bucket by exactly the adjustments that are new. */
  lemma {:induction false} AdjustmentsApplyOnce(s: Store, adjustments: seq<Adjustment>, key: Key, instrument: string,
                                                m: Meter)
    requires ApplyAll(s, adjustments).Done? && m in BUCKETS
    ensures Held(ApplyAll(s, adjustments).value.holdings, key, instrument, m)
         == Held(s.holdings, key, instrument, m) + Moved(FirstTime(s.applied.Keys, adjustments), key, instrument, m)
  {
    hide Held, ApplyOne, Moved, Ids, SameInstrument, Adjustment.Change;
    if adjustments == [] {
      NothingMoved(key, instrument, m);
    } else {
      var front, last := adjustments[..|adjustments| - 1], adjustments[|adjustments| - 1];
      var before := ApplyAll(s, front).value;
      AdjustmentsApplyOnce(s, front, key, instrument, m);
      AdjustmentsKeepTheStoreSound(s, front);
      if last.id in before.applied {
        AppliedIsSkipped(before, last);
        assert FirstTime(s.applied.Keys, adjustments) == FirstTime(s.applied.Keys, front);
      } else {
        AdjustmentMoves(before, last, key, instrument, m);
        MovedByOneMore(FirstTime(s.applied.Keys, front), last, key, instrument, m);
      }
    }
  }

  lemma NothingMoved(key: Key, instrument: string, m: Meter)
    ensures Moved([], key, instrument, m) == 0
  {
  }

  lemma AppliedIsSkipped(s: Store, a: Adjustment)
    requires a.id in s.applied
    ensures ApplyOne(s, a) == Done(s)
  {
  }

  // ---- Restarts ----

  /** Adjustments that are all applied already change nothing. */
  lemma {:induction false} RestartAppliesNothing(s: Store, again: seq<Adjustment>)
    requires Ids(again) <= s.applied.Keys
    ensures ApplyAll(s, again) == Done(s)
  {
    if again != [] {
      var front, last := again[..|again| - 1], again[|again| - 1];
      assert last.id in Ids(again);
      assert Ids(front) <= Ids(again);
      RestartAppliesNothing(s, front);
    }
  }

  /** The life of a store on file: restarts, each with the adjustments there are, and the holdings saved while trading. A
      restart writes the store only after validation and reconciliation, so that one that throws there, like a dry run,
      has adjusted but saves nothing. */
  datatype Session = Restart(adjustments: seq<Adjustment>, saved: bool) | Saved(holdings: Holdings)

  /** The store on file after a session; a restart that throws, or does not save, leaves it as it was. */
  ghost function AfterSession(s: Store, session: Session): Store {
    match session
    case Restart(adjustments, saved) =>
      var result := ApplyAll(s, adjustments);
      if saved && result.Done? then result.value else s
    case Saved(holdings) => s.(holdings := holdings)
  }

  /** The adjustments that a session makes part of the store on file. */
  ghost function NewIn(s: Store, session: Session): seq<Adjustment> {
    if session.Restart? && session.saved && ApplyAll(s, session.adjustments).Done?
    then FirstTime(s.applied.Keys, session.adjustments)
    else []
  }

  /** The adjustments that take effect over the sessions, in order. */
  ghost function TakingEffect(s: Store, sessions: seq<Session>): seq<Adjustment>
    decreases |sessions|
  {
    if sessions == [] then []
    else NewIn(s, sessions[0]) + TakingEffect(AfterSession(s, sessions[0]), sessions[1..])
  }

  ghost function AfterSessions(s: Store, sessions: seq<Session>): Store
    decreases |sessions|
  {
    if sessions == [] then s else AfterSessions(AfterSession(s, sessions[0]), sessions[1..])
  }

  ghost predicate DistinctIds(adjustments: seq<Adjustment>) {
    forall i, j :: 0 <= i < j < |adjustments| ==> adjustments[i].id != adjustments[j].id
  }

  lemma {:induction false} FirstTimeIsNew(applied: set<string>, adjustments: seq<Adjustment>)
    ensures DistinctIds(FirstTime(applied, adjustments))
    ensures forall a :: a in FirstTime(applied, adjustments) ==> a.id !in applied && a in adjustments
  {
    if adjustments != [] {
      var front := adjustments[..|adjustments| - 1];
      FirstTimeIsNew(applied, front);
      forall a | a in FirstTime(applied, front) ensures a.id in Ids(front) {
      }
    }
  }

  lemma {:induction false} FirstTimeHasAllNew(applied: set<string>, adjustments: seq<Adjustment>)
    ensures applied + Ids(FirstTime(applied, adjustments)) == applied + Ids(adjustments)
  {
    hide Ids;
    if adjustments != [] {
      var front, last := adjustments[..|adjustments| - 1], adjustments[|adjustments| - 1];
      FirstTimeHasAllNew(applied, front);
      assert adjustments == front + [last];
      OneMoreId(front, last);
      OneMoreId(FirstTime(applied, front), last);
      if last.id in applied || last.id in Ids(front) {
        assert FirstTime(applied, adjustments) == FirstTime(applied, front);
        assert last.id in applied + Ids(FirstTime(applied, front));
      }
    }
  }

  lemma NewInIsNew(s: Store, session: Session)
    ensures DistinctIds(NewIn(s, session))
    ensures forall a :: a in NewIn(s, session) ==> a.id !in s.applied
    ensures AfterSession(s, session).applied.Keys == s.applied.Keys + Ids(NewIn(s, session))
  {
    hide ApplyAll, FirstTime;
    if session.Restart? && session.saved && ApplyAll(s, session.adjustments).Done? {
      AdjustmentsKeepTheStoreSound(s, session.adjustments);
      FirstTimeIsNew(s.applied.Keys, session.adjustments);
      FirstTimeHasAllNew(s.applied.Keys, session.adjustments);
    }
  }

  lemma IdsOfBoth(a: seq<Adjustment>, b: seq<Adjustment>)
    ensures Ids(a + b) == Ids(a) + Ids(b)
  {
    assert forall x :: x in a + b <==> x in a || x in b;
  }

  /** Over any number of restarts, saved or not, and savings an adjustment id takes effect at most once, and never if it was
      applied before; and it is applied in the end if and only if it was before or took effect. */
  lemma {:induction false} EachIdTakesEffectOnce(s: Store, sessions: seq<Session>)
    ensures DistinctIds(TakingEffect(s, sessions))
    ensures forall a :: a in TakingEffect(s, sessions) ==> a.id !in s.applied
    ensures AfterSessions(s, sessions).applied.Keys == s.applied.Keys + Ids(TakingEffect(s, sessions))
    decreases |sessions|
  {
    hide AfterSession, NewIn;
    if sessions != [] {
      var after := AfterSession(s, sessions[0]);
      NewInIsNew(s, sessions[0]);
      EachIdTakesEffectOnce(after, sessions[1..]);
      IdsOfBoth(NewIn(s, sessions[0]), TakingEffect(after, sessions[1..]));
    }
  }
}
