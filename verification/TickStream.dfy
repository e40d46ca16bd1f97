/** The stream object: readers, a heap of the readers that have a tick, and the last tick handed out. */
module TickStream {
  import opened Domain
  import opened TickMerge

  datatype SourceFile = SourceFile(tradingDay: string, sourceIndex: nat, rows: Ticks)

  /** A reader with its current tick at the head of `rows`. */
  datatype Reader = Reader(sourceIndex: nat, rows: Ticks, sequence: nat)

  type Plan = seq<SourceFile>

  function RowsOf(plan: Plan): Files {
    seq(|plan|, i requires 0 <= i < |plan| => plan[i].rows)
  }

  /** How many leading files belong to `day`. */
  function SameDay(plan: Plan, day: string): (n: nat)
    ensures n <= |plan|
  {
    if plan == [] || plan[0].tradingDay != day then 0 else 1 + SameDay(plan[1..], day)
  }

  function GroupSize(plan: Plan): (n: nat)
    requires plan != []
    ensures 0 < n <= |plan|
  {
    SameDay(plan, plan[0].tradingDay)
  }

  /** A group is a trading day: its files have the day of the first, and the file after it has another. */
  lemma GroupsAreDays(plan: Plan)
    requires plan != []
    ensures var n := GroupSize(plan);
      && (forall i :: 0 <= i < n ==> plan[i].tradingDay == plan[0].tradingDay)
      && (n < |plan| ==> plan[n].tradingDay != plan[0].tradingDay)
  {
    SameDayEnds(plan, plan[0].tradingDay);
  }

  /** The merged ticks of the whole plan, group by group. */
  function MergedPlan(plan: Plan): Ticks
    decreases |plan|
  {
    if plan == [] then []
    else Merge(RowsOf(plan[..GroupSize(plan)])) + MergedPlan(plan[GroupSize(plan)..])
  }

  /** Files of one day are listed by increasing source index. */
  ghost predicate PlanOrdered(plan: Plan) {
    forall i, j :: 0 <= i < j < |plan| && plan[i].tradingDay == plan[j].tradingDay
                   ==> plan[i].sourceIndex < plan[j].sourceIndex
  }

  /** The order of the heap: key, then source, then row. */
  predicate ComesBefore(a: Reader, b: Reader)
    requires a.rows != [] && b.rows != []
  {
    var x, y := a.rows[0], b.rows[0];
    if x.timestampMs != y.timestampMs || x.timestamp != y.timestamp || x.instrument != y.instrument
       || x.exchange != y.exchange then KeyLess(x, y)
    else if a.sourceIndex != b.sourceIndex then a.sourceIndex < b.sourceIndex
    else a.sequence < b.sequence
  }

  function RemainingOf(readers: seq<Reader>): Files {
    seq(|readers|, i requires 0 <= i < |readers| => readers[i].rows)
  }

  ghost predicate HeapHolds(heap: seq<nat>, readers: seq<Reader>) {
    && (forall i :: i in heap <==> 0 <= i < |readers| && readers[i].rows != [])
    && (forall p, q :: 0 <= p < q < |heap| ==> heap[p] != heap[q])
  }

  ghost predicate SourcesAscend(readers: seq<Reader>) {
    forall i, j :: 0 <= i < j < |readers| ==> readers[i].sourceIndex < readers[j].sourceIndex
  }

  lemma SameKeyFields(x: MarketTick, y: MarketTick)
    requires KeyAtMost(x, y) && KeyAtMost(y, x)
    ensures x.timestampMs == y.timestampMs && x.timestamp == y.timestamp && x.instrument == y.instrument
            && x.exchange == y.exchange
  {
    TextOrder(x.timestamp, y.timestamp, x.timestamp);
    TextOrder(x.instrument, y.instrument, x.instrument);
    TextOrder(x.exchange, y.exchange, x.exchange);
  }

  /** The top of the heap is the leader of the merge. */
  lemma TopLeads(readers: seq<Reader>, heap: seq<nat>, top: nat)
    requires HeapHolds(heap, readers) && SourcesAscend(readers) && top in heap
    requires forall i :: i in heap ==> !ComesBefore(readers[i], readers[top])
    ensures Leads(RemainingOf(readers), top)
  {
    var files := RemainingOf(readers);
    forall j | 0 <= j < top && files[j] != [] ensures KeyLess(files[top][0], files[j][0]) {
      assert j in heap;
      KeyOrder(files[j][0], files[top][0], files[j][0]);
      if KeyAtMost(files[j][0], files[top][0]) {
        SameKeyOrBefore(readers[j], readers[top]);
      }
    }
    forall j | top < j < |files| && files[j] != [] ensures KeyAtMost(files[top][0], files[j][0]) {
      assert j in heap;
      if KeyLess(files[j][0], files[top][0]) {
        LessComesBefore(readers[j], readers[top]);
      }
    }
  }

  lemma LessComesBefore(a: Reader, b: Reader)
    requires a.rows != [] && b.rows != [] && KeyLess(a.rows[0], b.rows[0])
    ensures ComesBefore(a, b)
  {
    KeyOrder(a.rows[0], b.rows[0], a.rows[0]);
    var x, y := a.rows[0], b.rows[0];
    TextOrder(x.exchange, y.exchange, x.exchange);
  }

  lemma SameKeyOrBefore(a: Reader, b: Reader)
    requires a.rows != [] && b.rows != [] && KeyAtMost(a.rows[0], b.rows[0]) && a.sourceIndex < b.sourceIndex
    ensures ComesBefore(a, b)
  {
    if KeyAtMost(b.rows[0], a.rows[0]) {
      SameKeyFields(a.rows[0], b.rows[0]);
    } else {
      LessComesBefore(a, b);
    }
  }

  lemma {:induction false} SameDayIs(plan: Plan, day: string, n: nat)
    requires n <= |plan|
    requires forall i :: 0 <= i < n ==> plan[i].tradingDay == day
    requires n < |plan| ==> plan[n].tradingDay != day
    ensures SameDay(plan, day) == n
  {
    if n > 0 {
      SameDayIs(plan[1..], day, n - 1);
    }
  }

  /** The reader past its current tick. */
  function Advanced(reader: Reader): Reader
    requires reader.rows != []
  {
    reader.(rows := reader.rows[1..], sequence := reader.sequence + 1)
  }

  /** The top reader moves on, and stays in the heap while it has rows. */
  lemma TopAdvances(readers: seq<Reader>, heap: seq<nat>, top: nat, others: seq<nat>)
    requires HeapHolds(heap, readers) && SourcesAscend(readers) && top in heap
    requires forall i :: i in others <==> i in heap && i != top
    requires forall p, q :: 0 <= p < q < |others| ==> others[p] != others[q]
    ensures var after := readers[top := Advanced(readers[top])];
      && SourcesAscend(after) && RemainingOf(after) == RemainingOf(readers)[top := readers[top].rows[1..]]
      && HeapHolds(if readers[top].rows[1..] != [] then others + [top] else others, after)
  {
  }

  class BacktestDirectoryTickStream {
    const plan: Plan
    var readers: seq<Reader>
    var heap: seq<nat>
    var nextSource: nat
    var lastEmitted: Option<MarketTick>
    var emittedAny: bool

    ghost predicate Valid()
      reads this
    {
      nextSource <= |plan| && PlanOrdered(plan) && HeapHolds(heap, readers) && SourcesAscend(readers)
    }

    /** The ticks still to come. */
    ghost function Rest(): Ticks
      requires nextSource <= |plan|
      reads this
    {
      Unique(lastEmitted, Merge(RemainingOf(readers)) + MergedPlan(plan[nextSource..]))
    }

    constructor (plan: Plan)
      requires PlanOrdered(plan)
      ensures Valid() && Rest() == Unique(None, MergedPlan(plan)) && !emittedAny
    {
      this.plan, readers, heap, nextSource, lastEmitted, emittedAny := plan, [], [], 0, None, false;
      new;
      assert RemainingOf([]) == [] && Merge([]) == [] && plan[0..] == plan;
      assert [] + MergedPlan(plan) == MergedPlan(plan);
    }

    /** Open the files of the next trading day that has ticks. */
    method LoadNextGroup() returns (loaded: bool)
      requires Valid() && heap == []
      modifies this
      ensures Valid() && lastEmitted == old(lastEmitted) && emittedAny == old(emittedAny)
      ensures Rest() == old(Rest()) && loaded == (heap != [])
      ensures if loaded then nextSource > old(nextSource) else nextSource == |plan|
    {
      hide KeyLess, Merge, Unique, HeapHolds, SourcesAscend, PlanOrdered, RemainingOf, RowsOf;
      EmptyMerge(readers, heap);
      while nextSource < |plan|
        invariant Valid() && heap == [] && lastEmitted == old(lastEmitted) && emittedAny == old(emittedAny)
        invariant nextSource >= old(nextSource)
        invariant Merge(RemainingOf(readers)) == [] && Rest() == old(Rest())
      {
        ghost var start := nextSource;
        readers, heap, nextSource := OpenGroup(plan, nextSource);
        NothingBefore(MergedPlan(plan[start..]));
        if heap != [] {
          return true;
        }
        EmptyMerge(readers, heap);
        NothingBefore(MergedPlan(plan[nextSource..]));
      }
      return false;
    }

    /** The least reader of the heap. */
    method Top() returns (top: nat)
      requires Valid() && heap != []
      ensures top in heap && top < |readers| && readers[top].rows != []
      ensures forall i :: i in heap ==> !ComesBefore(readers[i], readers[top])
    {
      hide KeyLess, ComesBefore;
      top := heap[0];
      assert forall q :: 0 <= q < |heap| ==> heap[q] in heap;
      ComesBeforeIsOrder(readers[top], readers[top], readers[top]);
      for p := 1 to |heap|
        invariant top in heap
        invariant forall q :: 0 <= q < |heap| ==> heap[q] < |readers| && readers[heap[q]].rows != []
        invariant forall q :: 0 <= q < p ==> !ComesBefore(readers[heap[q]], readers[top])
      {
        var i := heap[p];
        if ComesBefore(readers[i], readers[top]) {
          forall q | 0 <= q < p ensures !ComesBefore(readers[heap[q]], readers[i]) {
            ComesBeforeIsOrder(readers[heap[q]], readers[i], readers[top]);
          }
          ComesBeforeIsOrder(readers[i], readers[i], readers[i]);
          top := i;
        }
      }
    }

    /** Take the current tick of the top reader, which goes back into the heap if it has another. */
    method TakeTop() returns (tick: MarketTick)
      requires Valid() && heap != []
      modifies this
      ensures Valid() && lastEmitted == old(lastEmitted) && nextSource == old(nextSource)
      ensures Merge(old(RemainingOf(readers))) == [tick] + Merge(RemainingOf(readers))
      ensures Rows(RemainingOf(readers)) < Rows(old(RemainingOf(readers)))
    {
      hide KeyLess, ComesBefore, Merge, Rows, Leads, SourcesAscend, PlanOrdered;
      var top := Top();
      ghost var files := RemainingOf(readers);
      TopLeads(readers, heap, top);
      MergeTakes(files, top);
      var reader := readers[top];
      tick := reader.rows[0];
      var others := RemoveFrom(heap, top);
      TopAdvances(readers, heap, top, others);
      readers := readers[top := Advanced(reader)];
      heap := if reader.rows[1..] != [] then others + [top] else others;
    }

    /** `next`: hands out the first tick still to come, if any. */
    method Next() returns (tick: Option<MarketTick>)
      requires Valid()
      modifies this
      ensures Valid()
      ensures if old(Rest()) == [] then tick == None && Rest() == []
              else tick == Some(old(Rest())[0]) && Rest() == old(Rest())[1..] && emittedAny
    {
      hide KeyLess, Merge, Unique, Identical, HeapHolds, SourcesAscend, PlanOrdered, MergedPlan, RemainingOf, Rows;
      while true
        invariant Valid() && Rest() == old(Rest())
        decreases |plan| - nextSource, Rows(RemainingOf(readers))
      {
        if heap == [] {
          var loaded := LoadNextGroup();
          if !loaded {
            EmptyMerge(readers, heap);
            NothingLeft(lastEmitted, plan, nextSource);
            return None;
          }
        }
        ghost var files, after := RemainingOf(readers), MergedPlan(plan[nextSource..]);
        var candidate := TakeTop();
        UniqueStep(lastEmitted, candidate, Merge(RemainingOf(readers)), after);
        if lastEmitted.None? || !Identical(lastEmitted.value, candidate) {
          lastEmitted, emittedAny := Some(candidate), true;
          return Some(candidate);
        }
      }
    }
  }

  lemma MergeTakes(files: Files, top: nat)
    requires Leads(files, top)
    ensures var rest := files[top := files[top][1..]];
      Merge(files) == [files[top][0]] + Merge(rest) && Rows(rest) < Rows(files)
  {
    assert AnyRows(files) by {
      assert files[top] != [];
    }
    LeaderIsUnique(files, Leader(files), top);
    RowsAfterTake(files, top);
  }

  lemma NothingBefore(s: Ticks)
    ensures [] + s == s
  {
  }

  lemma NothingLeft(last: Option<MarketTick>, plan: Plan, next: nat)
    requires next == |plan|
    ensures Unique(last, [] + MergedPlan(plan[next..])) == []
  {
    assert plan[next..] == [];
  }

  lemma UniqueStep(last: Option<MarketTick>, x: MarketTick, rest: Ticks, after: Ticks)
    ensures Unique(last, ([x] + rest) + after)
         == if last.Some? && Identical(last.value, x) then Unique(last, rest + after)
            else [x] + Unique(Some(x), rest + after)
  {
    hide Identical;
    assert ([x] + rest) + after == [x] + (rest + after);
    assert ([x] + (rest + after))[1..] == rest + after;
  }

  /** The readers of the trading day that starts at `start`, and the heap of those with a tick. */
  method OpenGroup(plan: Plan, start: nat) returns (readers: seq<Reader>, heap: seq<nat>, next: nat)
    requires start < |plan| && PlanOrdered(plan)
    ensures start < next <= |plan| && HeapHolds(heap, readers) && SourcesAscend(readers)
    ensures MergedPlan(plan[start..]) == Merge(RemainingOf(readers)) + MergedPlan(plan[next..])
  {
    hide Merge, HeapHolds;
    var day := plan[start].tradingDay;
    readers, heap, next := [], [], start;
    NoReaders();
    while next < |plan| && plan[next].tradingDay == day
      invariant start <= next <= |plan| && |readers| == next - start && HeapHolds(heap, readers)
      invariant next == start ==> plan[next].tradingDay == day
      invariant forall j :: start <= j < next ==>
        plan[j].tradingDay == day && readers[j - start] == Reader(plan[j].sourceIndex, plan[j].rows, 1)
      decreases |plan| - next
    {
      var reader := Reader(plan[next].sourceIndex, plan[next].rows, 1);
      HeapGrows(heap, readers, reader);
      if reader.rows != [] {
        heap := heap + [|readers|];
      }
      readers := readers + [reader];
      next := next + 1;
    }
    forall i | 0 <= i < next - start
      ensures plan[start..][i].tradingDay == day && readers[i].rows == plan[start..][i].rows
              && readers[i].sourceIndex == plan[start + i].sourceIndex {
      assert readers[start + i - start] == readers[i];
    }
    GroupLoaded(plan[start..], day, next - start);
    assert RemainingOf(readers) == RowsOf(plan[start..][..next - start]);
    assert plan[start..][next - start..] == plan[next..];
    forall i, j | 0 <= i < j < |readers| ensures readers[i].sourceIndex < readers[j].sourceIndex {
      assert plan[start + i].tradingDay == plan[start + j].tradingDay;
    }
  }

  lemma NoReaders()
    ensures HeapHolds([], [])
  {
  }

  lemma HeapGrows(heap: seq<nat>, readers: seq<Reader>, reader: Reader)
    requires HeapHolds(heap, readers)
    ensures HeapHolds(if reader.rows != [] then heap + [|readers|] else heap, readers + [reader])
  {
    var grown := if reader.rows != [] then heap + [|readers|] else heap;
    var all := readers + [reader];
    forall i ensures i in grown <==> 0 <= i < |all| && all[i].rows != [] {
      assert i in grown <==> i in heap || (reader.rows != [] && i == |readers|);
    }
    forall p, q | 0 <= p < q < |grown| ensures grown[p] != grown[q] {
      assert grown[p] == heap[p] && heap[p] in heap;
    }
  }

  method RemoveFrom(heap: seq<nat>, top: nat) returns (rest: seq<nat>)
    requires top in heap && forall p, q :: 0 <= p < q < |heap| ==> heap[p] != heap[q]
    ensures forall i :: i in rest <==> i in heap && i != top
    ensures forall p, q :: 0 <= p < q < |rest| ==> rest[p] != rest[q]
  {
    var p := 0;
    while heap[p] != top
      invariant 0 <= p < |heap| && top in heap[p..]
      decreases |heap| - p
    {
      p := p + 1;
    }
    rest := heap[..p] + heap[p + 1..];
    forall i ensures i in rest <==> i in heap && i != top {
      if i in heap && i != top {
        var q :| 0 <= q < |heap| && heap[q] == i;
        assert rest[if q < p then q else q - 1] == i;
      }
    }
  }

  lemma ComesBeforeIsOrder(a: Reader, b: Reader, c: Reader)
    requires a.rows != [] && b.rows != [] && c.rows != []
    ensures !ComesBefore(a, a)
    ensures !ComesBefore(a, c) && ComesBefore(b, c) ==> !ComesBefore(a, b)
  {
    var x, y, z := a.rows[0], b.rows[0], c.rows[0];
    TextOrder(x.timestamp, y.timestamp, z.timestamp);
    TextOrder(x.instrument, y.instrument, z.instrument);
    TextOrder(x.exchange, y.exchange, z.exchange);
  }

  lemma EmptyMerge(readers: seq<Reader>, heap: seq<nat>)
    requires HeapHolds(heap, readers) && heap == []
    ensures Merge(RemainingOf(readers)) == []
  {
    forall i | 0 <= i < |readers| ensures readers[i].rows == [] {
      assert i !in heap;
    }
  }

  lemma GroupLoaded(plan: Plan, day: string, n: nat)
    requires 0 < n <= |plan| && forall i :: 0 <= i < n ==> plan[i].tradingDay == day
    requires n < |plan| ==> plan[n].tradingDay != day
    ensures MergedPlan(plan) == Merge(RowsOf(plan[..n])) + MergedPlan(plan[n..])
  {
    hide Merge;
    SameDayIs(plan, day, n);
  }

  /** Group by group, a plan whose files are each in key order streams the stable sort of each group. */
  function SortedPlan(plan: Plan): Ticks
    decreases |plan|
  {
    if plan == [] then []
    else StableSort(Concat(RowsOf(plan[..GroupSize(plan)]))) + SortedPlan(plan[GroupSize(plan)..])
  }

  /** The stream is sort-then-unique: on files in key order, what a new stream will hand out is each day's files
      concatenated in source order and stably sorted, identical neighbours collapsed across days too. */
  lemma StreamIsSortThenUnique(plan: Plan)
    requires forall i :: 0 <= i < |plan| ==> Sorted(plan[i].rows)
    ensures Unique(None, MergedPlan(plan)) == Unique(None, SortedPlan(plan))
  {
    MergedIsSorted(plan);
  }

  /** The files come day by day, and the days one after the other in time. */
  ghost predicate DaysInTurn(plan: Plan) {
    && (forall i, j, k :: 0 <= i < j < k < |plan| && plan[i].tradingDay == plan[k].tradingDay
                          ==> plan[j].tradingDay == plan[i].tradingDay)
    && (forall i, j :: 0 <= i < j < |plan| && plan[i].tradingDay != plan[j].tradingDay
                       ==> forall x, y :: x in plan[i].rows && y in plan[j].rows ==> NotAfter(x, y))
  }

  /** On chronological files whose days are in turn, the stream never goes back in time. */
  lemma StreamIsChronological(plan: Plan)
    requires DaysInTurn(plan) && forall i :: 0 <= i < |plan| ==> Chronological(plan[i].rows)
    ensures Chronological(Unique(None, MergedPlan(plan)))
  {
    hide Sorted, Chronological, MergedPlan, SortedPlan, DaysInTurn;
    forall i | 0 <= i < |plan| ensures Sorted(plan[i].rows) {
      SortedIsChronological(plan[i].rows);
    }
    MergedIsSorted(plan);
    PlanIsChronological(plan);
    UniqueKeepsTime(None, SortedPlan(plan));
  }

  lemma {:induction false} InPlan(plan: Plan, t: MarketTick) returns (i: nat)
    requires t in SortedPlan(plan)
    ensures i < |plan| && t in plan[i].rows
    decreases |plan|
  {
    var n := GroupSize(plan);
    var files := RowsOf(plan[..n]);
    if t in StableSort(Concat(files)) {
      StableSortIsStable(Concat(files), t);
      assert t in multiset(Concat(files));
      i := InConcat(files, t);
    } else {
      var j := InPlan(plan[n..], t);
      i := n + j;
    }
  }

  lemma GroupIsADay(plan: Plan, i: nat, j: nat)
    requires plan != [] && DaysInTurn(plan) && i < GroupSize(plan) <= j < |plan|
    ensures plan[i].tradingDay == plan[0].tradingDay != plan[j].tradingDay
  {
    GroupsAreDays(plan);
  }

  lemma {:induction false} SameDayEnds(plan: Plan, day: string)
    ensures var n := SameDay(plan, day);
      && (forall i :: 0 <= i < n ==> plan[i].tradingDay == day)
      && (n < |plan| ==> plan[n].tradingDay != day)
  {
    if plan != [] && plan[0].tradingDay == day {
      SameDayEnds(plan[1..], day);
    }
  }

  lemma {:induction false} PlanIsChronological(plan: Plan)
    requires DaysInTurn(plan)
    ensures Chronological(SortedPlan(plan))
    decreases |plan|
  {
    hide StableSort, NotAfter, Concat;
    if plan != [] {
      var n := GroupSize(plan);
      var files, rest := RowsOf(plan[..n]), SortedPlan(plan[n..]);
      var day := StableSort(Concat(files));
      PlanIsChronological(plan[n..]);
      DayIsSorted(files);
      forall x, y | x in day && y in rest ensures NotAfter(x, y) {
        var i := InDay(files, x);
        var j := InPlan(plan[n..], y);
        GroupIsADay(plan, i, n + j);
        assert x in plan[i].rows && y in plan[n + j].rows;
      }
    }
  }

  lemma DayIsSorted(files: Files)
    ensures Chronological(StableSort(Concat(files)))
  {
    hide NotAfter, KeyAtMost;
    if Concat(files) != [] {
      StableSortIsStable(Concat(files), Concat(files)[0]);
    }
    SortedIsChronological(StableSort(Concat(files)));
  }

  lemma InDay(files: Files, t: MarketTick) returns (i: nat)
    requires t in StableSort(Concat(files))
    ensures i < |files| && t in files[i]
  {
    StableSortIsStable(Concat(files), t);
    assert t in multiset(Concat(files));
    i := InConcat(files, t);
  }

  lemma {:induction false} UniqueKeepsTime(last: Option<MarketTick>, s: Ticks)
    requires Chronological(s)
    ensures Chronological(Unique(last, s)) && forall t :: t in Unique(last, s) ==> t in s
    decreases |s|
  {
    hide NotAfter;
    if s != [] {
      var next := if last.Some? && Identical(last.value, s[0]) then last else Some(s[0]);
      UniqueKeepsTime(next, s[1..]);
      assert forall t :: t in s[1..] ==> NotAfter(s[0], t);
    }
  }

  lemma {:induction false} MergedIsSorted(plan: Plan)
    requires forall i :: 0 <= i < |plan| ==> Sorted(plan[i].rows)
    ensures MergedPlan(plan) == SortedPlan(plan)
    decreases |plan|
  {
    hide Merge, StableSort, Sorted;
    if plan != [] {
      var n := GroupSize(plan);
      var files := RowsOf(plan[..n]);
      assert forall j :: 0 <= j < |files| ==> Sorted(files[j]);
      MergeIsStableSort(files);
      MergedIsSorted(plan[n..]);
    }
  }
}
