/** The directory stream: a k-way merge of tick files, one trading day at a time, against sort-then-unique. */
module TickMerge {
  import opened Text
  import opened Domain

  type Ticks = seq<MarketTick>

  // ---- The order of ticks ----

  /** Time, then timestamp text, instrument and exchange. */
  predicate KeyLess(a: MarketTick, b: MarketTick) {
    if a.timestampMs != b.timestampMs then a.timestampMs < b.timestampMs
    else if a.timestamp != b.timestamp then Before(a.timestamp, b.timestamp)
    else if a.instrument != b.instrument then Before(a.instrument, b.instrument)
    else Before(a.exchange, b.exchange)
  }

  predicate KeyAtMost(a: MarketTick, b: MarketTick) {
    !KeyLess(b, a)
  }

  /** The comparator of the batch loader; `epoch` parses a timestamp that has no milliseconds yet. */
  predicate BatchLess(a: MarketTick, b: MarketTick, epoch: string -> Option<int>) {
    var left := if a.timestampMs != 0 then Some(a.timestampMs / 1000) else epoch(a.timestamp);
    var right := if b.timestampMs != 0 then Some(b.timestampMs / 1000) else epoch(b.timestamp);
    if a.timestampMs != 0 && b.timestampMs != 0 && a.timestampMs != b.timestampMs then a.timestampMs < b.timestampMs
    else if left.Some? && right.Some? && left != right then left.value < right.value
    else if a.timestamp != b.timestamp then Before(a.timestamp, b.timestamp)
    else if a.instrument != b.instrument then Before(a.instrument, b.instrument)
    else Before(a.exchange, b.exchange)
  }

  /** When both timestamps parsed, batch and stream order ticks alike. */
  lemma BatchOrderIsStreamOrder(a: MarketTick, b: MarketTick, epoch: string -> Option<int>)
    requires a.timestampMs != 0 && b.timestampMs != 0
    ensures BatchLess(a, b, epoch) == KeyLess(a, b)
  {
  }

  predicate TextAtMost(a: string, b: string) {
    a == b || Before(a, b)
  }

  /** No earlier tick comes after a later one; ticks of one time come by timestamp text, instrument and exchange. */
  predicate NotAfter(a: MarketTick, b: MarketTick) {
    && a.timestampMs <= b.timestampMs
    && (a.timestampMs == b.timestampMs ==>
          && TextAtMost(a.timestamp, b.timestamp)
          && (a.timestamp == b.timestamp ==>
                && TextAtMost(a.instrument, b.instrument)
                && (a.instrument == b.instrument ==> TextAtMost(a.exchange, b.exchange))))
  }

  predicate Chronological(s: Ticks) {
    forall i, j :: 0 <= i < j < |s| ==> NotAfter(s[i], s[j])
  }

  /** The order is chronological. */
  lemma KeysAreChronological(a: MarketTick, b: MarketTick)
    ensures KeyAtMost(a, b) <==> NotAfter(a, b)
  {
    BeforeIsTotal(a.timestamp, b.timestamp);
    BeforeIsTotal(a.instrument, b.instrument);
    BeforeIsTotal(a.exchange, b.exchange);
  }

  lemma SortedIsChronological(s: Ticks)
    ensures Sorted(s) <==> Chronological(s)
  {
    hide KeyAtMost, NotAfter;
    forall i, j | 0 <= i < j < |s| ensures KeyAtMost(s[i], s[j]) <==> NotAfter(s[i], s[j]) {
      KeysAreChronological(s[i], s[j]);
    }
  }

  lemma KeyOrder(a: MarketTick, b: MarketTick, c: MarketTick)
    ensures KeyAtMost(a, b) || KeyAtMost(b, a)
    ensures KeyAtMost(a, b) && KeyAtMost(b, c) ==> KeyAtMost(a, c)
    ensures KeyLess(a, b) && KeyAtMost(b, c) ==> KeyLess(a, c)
    ensures KeyAtMost(a, b) && KeyLess(b, c) ==> KeyLess(a, c)
  {
    TextOrder(a.timestamp, b.timestamp, c.timestamp);
    TextOrder(a.instrument, b.instrument, c.instrument);
    TextOrder(a.exchange, b.exchange, c.exchange);
  }

  lemma TextOrder(a: string, b: string, c: string)
    ensures Before(a, b) && Before(b, c) ==> Before(a, c)
    ensures Before(c, b) && Before(b, a) ==> Before(c, a)
    ensures (Before(a, b) || a == b || Before(b, a)) && !(Before(a, b) && Before(b, a)) && !Before(a, a)
    ensures (Before(b, c) || b == c || Before(c, b)) && !(Before(b, c) && Before(c, b))
    ensures (Before(a, c) || a == c || Before(c, a)) && !(Before(a, c) && Before(c, a))
  {
    BeforeIsTotal(a, b);
    BeforeIsTotal(b, c);
    BeforeIsTotal(a, c);
    if Before(a, b) && Before(b, c) {
      BeforeIsTransitive(a, b, c);
    }
    if Before(c, b) && Before(b, a) {
      BeforeIsTransitive(c, b, a);
    }
  }

  // ---- The reference: a stable sort, then unique ----

  function Insert(x: MarketTick, s: Ticks): Ticks {
    if s == [] || KeyAtMost(x, s[0]) then [x] + s else [s[0]] + Insert(x, s[1..])
  }

  function StableSort(s: Ticks): Ticks {
    if s == [] then [] else Insert(s[0], StableSort(s[1..]))
  }

  predicate Sorted(s: Ticks) {
    forall i, j :: 0 <= i < j < |s| ==> KeyAtMost(s[i], s[j])
  }

  predicate SameKey(a: MarketTick, b: MarketTick) {
    KeyAtMost(a, b) && KeyAtMost(b, a)
  }

  /** The ticks of `s` with the key of `x`, in order. */
  function WithKey(s: Ticks, x: MarketTick): Ticks {
    if s == [] then [] else (if SameKey(s[0], x) then [s[0]] else []) + WithKey(s[1..], x)
  }

  lemma {:induction false} InsertPermutes(x: MarketTick, s: Ticks)
    ensures multiset(Insert(x, s)) == multiset{x} + multiset(s)
  {
    if s != [] && !KeyAtMost(x, s[0]) {
      InsertPermutes(x, s[1..]);
      assert s == [s[0]] + s[1..];
    }
  }

  lemma {:induction false} InsertSorts(x: MarketTick, s: Ticks)
    requires Sorted(s)
    ensures Sorted(Insert(x, s))
  {
    hide KeyAtMost;
    if s == [] || KeyAtMost(x, s[0]) {
      forall i | 0 <= i < |s| ensures KeyAtMost(x, s[i]) {
        KeyChain(x, s[0], s[i]);
      }
    } else {
      var rest := Insert(x, s[1..]);
      InsertSorts(x, s[1..]);
      InsertPermutes(x, s[1..]);
      forall i | 0 <= i < |rest| ensures KeyAtMost(s[0], rest[i]) {
        assert rest[i] in multiset(rest);
        KeyChain(s[0], x, rest[i]);
      }
    }
  }

  lemma {:induction false} InsertKeepsKeys(x: MarketTick, s: Ticks, k: MarketTick)
    ensures WithKey(Insert(x, s), k) == WithKey([x] + s, k)
  {
    hide KeyAtMost;
    if s != [] && !KeyAtMost(x, s[0]) {
      var rest := Insert(x, s[1..]);
      InsertKeepsKeys(x, s[1..], k);
      assert ([s[0]] + rest)[1..] == rest && ([x] + s)[1..] == s && ([x] + s[1..])[1..] == s[1..];
      KeyChain(s[0], x, k);
      KeyChain(k, x, s[0]);
      KeyChain(x, k, s[0]);
    }
  }

  lemma KeyChain(a: MarketTick, b: MarketTick, c: MarketTick)
    ensures KeyAtMost(a, a) && (KeyAtMost(a, b) || KeyAtMost(b, a))
    ensures KeyAtMost(a, b) && KeyAtMost(b, c) ==> KeyAtMost(a, c)
    ensures KeyAtMost(b, c) && KeyAtMost(c, a) ==> KeyAtMost(b, a)
  {
    KeyOrder(a, b, c);
    KeyOrder(a, a, a);
    KeyOrder(b, c, a);
  }

  /** The reference is a stable sort: a permutation, in key order, with equal keys in their original order. */
  lemma {:induction false} StableSortIsStable(s: Ticks, k: MarketTick)
    ensures multiset(StableSort(s)) == multiset(s)
    ensures Sorted(StableSort(s))
    ensures WithKey(StableSort(s), k) == WithKey(s, k)
  {
    if s != [] {
      StableSortIsStable(s[1..], k);
      InsertPermutes(s[0], StableSort(s[1..]));
      InsertSorts(s[0], StableSort(s[1..]));
      InsertKeepsKeys(s[0], StableSort(s[1..]), k);
      assert s == [s[0]] + s[1..];
      assert ([s[0]] + StableSort(s[1..]))[1..] == StableSort(s[1..]);
    }
  }

  /** `identical_market_ticks`: the limit prices are not compared. */
  predicate Identical(a: MarketTick, b: MarketTick) {
    a == b.(upperLimitPrice := a.upperLimitPrice, lowerLimitPrice := a.lowerLimitPrice)
  }

  /** The ticks agree on everything but the price limits of the day. */
  predicate Alike(a: MarketTick, b: MarketTick) {
    && a.timestamp == b.timestamp && a.timestampMs == b.timestampMs && a.tradingDay == b.tradingDay
    && a.instrument == b.instrument && a.exchange == b.exchange && a.last == b.last && a.volume == b.volume
    && a.turnover == b.turnover && a.bid == b.bid && a.bidSize == b.bidSize && a.ask == b.ask && a.askSize == b.askSize
  }

  lemma IdenticalIsAlike(a: MarketTick, b: MarketTick)
    ensures Identical(a, b) <==> Alike(a, b)
  {
  }

  /** Collapse runs of identical ticks, continuing after `last`. */
  function Unique(last: Option<MarketTick>, s: Ticks): Ticks
    decreases |s|
  {
    if s == [] then []
    else if last.Some? && Identical(last.value, s[0]) then Unique(last, s[1..])
    else [s[0]] + Unique(Some(s[0]), s[1..])
  }

  /** Collapsing loses no tick: each is handed out, or like one that is, or like the last one before. */
  lemma {:induction false} UniqueLosesNothing(last: Option<MarketTick>, s: Ticks, t: MarketTick)
    requires t in s
    ensures (last.Some? && Alike(last.value, t)) || exists u :: u in Unique(last, s) && Alike(u, t)
    decreases |s|
  {
    hide Identical, Alike;
    IdenticalIsAlike(t, t);
    ItIsItself(t);
    if last.Some? {
      IdenticalIsAlike(last.value, s[0]);
    }
    var dropped := last.Some? && Identical(last.value, s[0]);
    if t != s[0] || !dropped {
      var rest := Unique(if dropped then last else Some(s[0]), s[1..]);
      if t in s[1..] {
        UniqueLosesNothing(if dropped then last else Some(s[0]), s[1..], t);
        if exists u :: u in rest && Alike(u, t) {
          var u :| u in rest && Alike(u, t);
          assert u in Unique(last, s);
        } else if !dropped {
          assert s[0] in Unique(last, s);
        }
      } else {
        assert s[0] == t && s[0] in Unique(last, s);
      }
    }
  }

  lemma ItIsItself(t: MarketTick)
    ensures Identical(t, t)
  {
  }

  /** No tick repeats its predecessor. */
  lemma {:induction false} UniqueCollapses(last: Option<MarketTick>, s: Ticks)
    ensures var u := Unique(last, s);
      && (u != [] && last.Some? ==> !Alike(last.value, u[0]))
      && forall i :: 0 <= i < |u| - 1 ==> !Alike(u[i], u[i + 1])
    decreases |s|
  {
    hide Identical, Alike;
    if s != [] {
      if last.Some? {
        IdenticalIsAlike(last.value, s[0]);
      }
      if last.Some? && Identical(last.value, s[0]) {
        UniqueCollapses(last, s[1..]);
      } else {
        UniqueCollapses(Some(s[0]), s[1..]);
      }
    }
  }

  // ---- The merge ----

  type Files = seq<Ticks>

  function Rows(files: Files): nat {
    if files == [] then 0 else Rows(files[..|files| - 1]) + |files[|files| - 1]|
  }

  lemma {:induction false} RowsAfterTake(files: Files, i: nat)
    requires i < |files| && files[i] != []
    ensures Rows(files[i := files[i][1..]]) == Rows(files) - 1
  {
    var last := |files| - 1;
    if i < last {
      RowsAfterTake(files[..last], i);
      assert files[i := files[i][1..]][..last] == files[..last][i := files[i][1..]];
    } else {
      assert files[i := files[i][1..]][..last] == files[..last];
    }
  }

  predicate AnyRows(files: Files) {
    exists i :: 0 <= i < |files| && files[i] != []
  }

  /** The head of file `i` comes first: strictly before the heads of earlier files, at most equal to later ones. */
  predicate Leads(files: Files, i: nat) {
    i < |files| && files[i] != []
    && (forall j :: 0 <= j < i && files[j] != [] ==> KeyLess(files[i][0], files[j][0]))
    && (forall j :: i < j < |files| && files[j] != [] ==> KeyAtMost(files[i][0], files[j][0]))
  }

  /** The first file with the least head. */
  function Leader(files: Files): (i: nat)
    requires AnyRows(files)
    ensures Leads(files, i)
  {
    var last := |files| - 1;
    var before := files[..last];
    if !AnyRows(before) then
      assert forall j :: 0 <= j < last ==> files[j] == before[j];
      last
    else
      var i := Leader(before);
      assert forall j :: 0 <= j < last ==> files[j] == before[j];
      LeaderStep(files, i);
      if files[last] != [] && KeyLess(files[last][0], files[i][0]) then last else i
  }

  lemma LeaderStep(files: Files, i: nat)
    requires files != [] && i < |files| - 1 && Leads(files[..|files| - 1], i)
    ensures var last := |files| - 1;
      Leads(files, if files[last] != [] && KeyLess(files[last][0], files[i][0]) then last else i)
  {
    var last := |files| - 1;
    assert forall j :: 0 <= j < last ==> files[j] == files[..last][j];
    if files[last] != [] && KeyLess(files[last][0], files[i][0]) {
      forall j | 0 <= j < last && files[j] != [] ensures KeyLess(files[last][0], files[j][0]) {
        KeyOrder(files[last][0], files[i][0], files[j][0]);
        KeyOrder(files[i][0], files[j][0], files[i][0]);
      }
    }
  }

  lemma LeaderIsUnique(files: Files, i: nat, j: nat)
    requires Leads(files, i) && Leads(files, j)
    ensures i == j
  {
  }

  /** Take from the leading file until all are empty. */
  function Merge(files: Files): Ticks
    decreases Rows(files)
  {
    if !AnyRows(files) then []
    else
      var i := Leader(files);
      RowsAfterTake(files, i);
      [files[i][0]] + Merge(files[i := files[i][1..]])
  }

  /** The file each merged tick came from. */
  function Origins(files: Files): seq<nat>
    decreases Rows(files)
  {
    if !AnyRows(files) then []
    else
      var i := Leader(files);
      RowsAfterTake(files, i);
      [i] + Origins(files[i := files[i][1..]])
  }

  function Select(s: Ticks, origins: seq<nat>, file: nat): Ticks
    requires |s| == |origins|
  {
    if s == [] then [] else (if origins[0] == file then [s[0]] else []) + Select(s[1..], origins[1..], file)
  }

  /** Sorted or not, merging interleaves the files: each file's rows come out complete and in order. */
  lemma {:induction false} MergeInterleaves(files: Files, file: nat)
    requires file < |files|
    ensures |Origins(files)| == |Merge(files)| == Rows(files)
    ensures Select(Merge(files), Origins(files), file) == files[file]
    decreases Rows(files)
  {
    if !AnyRows(files) {
      NoRows(files);
    } else {
      var i := Leader(files);
      var rest := files[i := files[i][1..]];
      RowsAfterTake(files, i);
      MergeInterleaves(rest, file);
      assert files[i] == [files[i][0]] + files[i][1..];
      assert Merge(files)[1..] == Merge(rest) && Origins(files)[1..] == Origins(rest);
    }
  }

  lemma {:induction false} NoRows(files: Files)
    requires !AnyRows(files)
    ensures Rows(files) == 0
  {
    if files != [] {
      assert files[|files| - 1] == [];
      assert forall j :: 0 <= j < |files| - 1 ==> files[..|files| - 1][j] == files[j];
      NoRows(files[..|files| - 1]);
    }
  }

  function Concat(files: Files): Ticks {
    if files == [] then [] else files[0] + Concat(files[1..])
  }

  lemma {:induction false} ConcatSplit(files: Files, i: nat)
    requires i < |files|
    ensures Concat(files) == Concat(files[..i]) + files[i] + Concat(files[i + 1..])
  {
    if i > 0 {
      ConcatSplit(files[1..], i - 1);
      assert files[1..][..i - 1] == files[..i][1..] && files[1..][i..] == files[i + 1..] && files[..i][0] == files[0];
    }
  }

  lemma {:induction false} InConcat(files: Files, t: MarketTick) returns (i: nat)
    requires t in Concat(files)
    ensures i < |files| && t in files[i]
  {
    if t in files[0] {
      i := 0;
    } else {
      var j := InConcat(files[1..], t);
      i := j + 1;
    }
  }

  /** A tick strictly before what precedes it, and at most equal to what follows, is what the sort puts first. */
  lemma {:induction false} FirstOfSort(before: Ticks, x: MarketTick, after: Ticks)
    requires forall t :: t in before ==> KeyLess(x, t)
    requires forall t :: t in after ==> KeyAtMost(x, t)
    ensures StableSort(before + [x] + after) == [x] + StableSort(before + after)
    decreases |before|
  {
    if before == [] {
      assert [] + [x] + after == [x] + after && [] + after == after;
      assert ([x] + after)[1..] == after;
      StableSortIsStable(after, x);
      var s := StableSort(after);
      if s != [] {
        assert s[0] in multiset(s);
      }
    } else {
      var y, rest := before[0], before[1..];
      FirstOfSort(rest, x, after);
      assert (before + [x] + after)[1..] == rest + [x] + after && (before + after)[1..] == rest + after;
      assert ([x] + StableSort(rest + after))[1..] == StableSort(rest + after);
    }
  }

  lemma LeaderPrecedesAll(files: Files, i: nat)
    requires Leads(files, i) && forall j :: 0 <= j < |files| ==> Sorted(files[j])
    ensures forall t :: t in Concat(files[..i]) ==> KeyLess(files[i][0], t)
    ensures forall t :: t in files[i][1..] + Concat(files[i + 1..]) ==> KeyAtMost(files[i][0], t)
  {
    hide KeyLess, KeyAtMost;
    var x := files[i][0];
    forall t | t in Concat(files[..i]) ensures KeyLess(x, t) {
      var j := InConcat(files[..i], t);
      assert files[..i][j] == files[j] && files[j] != [];
      HeadIsLeast(files[j], t);
      LessThenAtMost(x, files[j][0], t);
    }
    forall t | t in files[i][1..] + Concat(files[i + 1..]) ensures KeyAtMost(x, t) {
      if t in files[i][1..] {
        HeadIsLeast(files[i], t);
      } else {
        var j := InConcat(files[i + 1..], t);
        assert files[i + 1..][j] == files[i + 1 + j] && files[i + 1 + j] != [];
        HeadIsLeast(files[i + 1 + j], t);
        KeyChain(x, files[i + 1 + j][0], t);
      }
    }
  }

  lemma HeadIsLeast(s: Ticks, t: MarketTick)
    requires Sorted(s) && t in s
    ensures KeyAtMost(s[0], t)
  {
    KeyChain(t, t, t);
  }

  lemma LessThenAtMost(a: MarketTick, b: MarketTick, c: MarketTick)
    requires KeyLess(a, b) && KeyAtMost(b, c)
    ensures KeyLess(a, c)
  {
    KeyOrder(a, b, c);
  }

  /** Merging files that are each in key order is stably sorting their concatenation. */
  lemma {:induction false} MergeIsStableSort(files: Files)
    requires forall j :: 0 <= j < |files| ==> Sorted(files[j])
    ensures Merge(files) == StableSort(Concat(files))
    decreases Rows(files)
  {
    hide KeyLess, KeyAtMost, Leads;
    if !AnyRows(files) {
      ConcatOfEmpty(files);
    } else {
      var i := Leader(files);
      LeadsHas(files, i);
      RowsAfterTake(files, i);
      TailsSorted(files, i);
      MergeIsStableSort(files[i := files[i][1..]]);
      SortTakesLeader(files, i);
    }
  }

  lemma SortTakesLeader(files: Files, i: nat)
    requires Leads(files, i) && forall j :: 0 <= j < |files| ==> Sorted(files[j])
    ensures StableSort(Concat(files)) == [files[i][0]] + StableSort(Concat(files[i := files[i][1..]]))
  {
    hide KeyLess, KeyAtMost, StableSort, Concat;
    var x, rest := files[i][0], files[i := files[i][1..]];
    var before, after := Concat(files[..i]), files[i][1..] + Concat(files[i + 1..]);
    ConcatSplit(files, i);
    ConcatSplit(rest, i);
    assert rest[..i] == files[..i] && rest[i + 1..] == files[i + 1..];
    assert files[i] == [x] + files[i][1..];
    assert Concat(files) == before + [x] + after && Concat(rest) == before + after;
    LeaderPrecedesAll(files, i);
    FirstOfSort(before, x, after);
  }

  lemma LeadsHas(files: Files, i: nat)
    requires Leads(files, i)
    ensures i < |files| && files[i] != []
  {
  }

  lemma TailsSorted(files: Files, i: nat)
    requires i < |files| && files[i] != [] && forall j :: 0 <= j < |files| ==> Sorted(files[j])
    ensures var rest := files[i := files[i][1..]]; forall j :: 0 <= j < |rest| ==> Sorted(rest[j])
  {
    hide KeyAtMost;
  }

  lemma {:induction false} ConcatOfEmpty(files: Files)
    requires !AnyRows(files)
    ensures Concat(files) == []
  {
    if files != [] {
      assert files[0] == [];
      assert forall j :: 0 <= j < |files[1..]| ==> files[1..][j] == files[j + 1];
      ConcatOfEmpty(files[1..]);
    }
  }
}
