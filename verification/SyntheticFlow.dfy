/** The per-price volume reconstruction behind synthetic orders: two-price interpolation ("mode 0"), and the greedy
    redistribution of lots over a price lattice. */
module SyntheticFlow {
  import opened Numeric
  import opened Domain
  import opened Ledger
  import opened TradeFlow

  datatype Flow = Flow(byPrice: Histogram, vwap: real, volume: int)

  function Key(price: real, scale: int): int {
    Round(price * Max(scale, 1) as real)
  }

  function AddVolume(h: Histogram, price: real, volume: int, scale: int): Histogram {
    if price <= 0.0 || volume <= 0 then h
    else h[Key(price, scale) := VolumeAt(h, Key(price, scale)) + volume]
  }

  lemma AddVolumeTotal(h: Histogram, price: real, volume: int, scale: int)
    requires NonNegative(h)
    ensures NonNegative(AddVolume(h, price, volume, scale))
    ensures Total(AddVolume(h, price, volume, scale))
         == Total(h) + (if price <= 0.0 || volume <= 0 then 0 else volume)
  {
    var key := Key(price, scale);
    TotalUpdate(h, key, VolumeAt(h, key) + volume);
  }

  // ---- Mode 0: interpolation between the two ticks around the average price ----

  datatype Bracket = Bracket(lower: real, upper: real)

  function TickSize(model: CostModel): (t: real)
    ensures t > 0.0
  {
    MaxReal(model.tickSize, PRICE_EPSILON)
  }

  function OnTick(vwap: real, tickSize: real): real
    requires tickSize > 0.0
  {
    Round(vwap / tickSize) as real * tickSize
  }

  function BracketOf(vwap: real, tickSize: real): Bracket
    requires tickSize > 0.0
  {
    var rounded := OnTick(vwap, tickSize);
    Bracket(if rounded > vwap then rounded - tickSize else rounded, if rounded < vwap then rounded + tickSize else rounded)
  }

  function Clamp(x: int, low: int, high: int): int {
    if x < low then low else if x > high then high else x
  }

  /** Lots put at the lower of the two prices. */
  function LowerLots(vwap: real, b: Bracket, volume: int): int
    requires b.lower < b.upper
  {
    Clamp(Round(LowerShare(vwap, b, volume)), 0, volume)
  }

  /** The volume's share for the lower price, before rounding. */
  function LowerShare(vwap: real, b: Bracket, volume: int): real
    requires b.lower < b.upper
  {
    (b.upper - vwap) / (b.upper - b.lower) * volume as real
  }

  /** Move one lot from `source` to the price of the last trade, if there is one to move. */
  function MoveOne(h: Histogram, source: int, target: int): Histogram {
    if VolumeAt(h, source) > 0
    then var taken := h[source := VolumeAt(h, source) - 1]; taken[target := VolumeAt(taken, target) + 1]
    else h
  }

  /** The last trade happened somewhere: give its price one lot, from the nearer side first. */
  function RepresentLast(h: Histogram, last: real, b: Bracket, scale: int): Histogram {
    var key := Key(last, scale);
    if key in h then h
    else if AbsReal(last - b.lower) <= AbsReal(last - b.upper) && VolumeAt(h, Key(b.lower, scale)) > 0
    then MoveOne(h, Key(b.lower, scale), key)
    else MoveOne(h, Key(b.upper, scale), key)
  }

  /** `populate_mode0_distribution`, on an empty histogram. */
  function Mode0(vwap: real, volume: int, last: real, model: CostModel): Histogram {
    var b := BracketOf(vwap, TickSize(model));
    if b.upper - b.lower < PRICE_EPSILON then AddVolume(map[], OnTick(vwap, TickSize(model)), volume, model.priceScale)
    else
      var lowerLots := LowerLots(vwap, b, volume);
      var lower := AddVolume(map[], b.lower, lowerLots, model.priceScale);
      var both := AddVolume(lower, b.upper, volume - lowerLots, model.priceScale);
      RepresentLast(both, last, b, model.priceScale)
  }

  lemma MoveOneKeepsTotal(h: Histogram, source: int, target: int)
    requires NonNegative(h) && source != target
    ensures NonNegative(MoveOne(h, source, target)) && Total(MoveOne(h, source, target)) == Total(h)
  {
    if VolumeAt(h, source) > 0 {
      var taken := h[source := VolumeAt(h, source) - 1];
      TotalUpdate(h, source, VolumeAt(h, source) - 1);
      TotalUpdate(taken, target, VolumeAt(taken, target) + 1);
    }
  }

  // ---- Where the two prices lie, and how the lots are split ----

  lemma AverageNearTick(vwap: real, tickSize: real)
    requires tickSize > 0.0
    ensures -tickSize <= 2.0 * (vwap - OnTick(vwap, tickSize)) <= tickSize
  {
    var q, n := vwap / tickSize, Round(vwap / tickSize);
    RoundedQuotient(q, vwap, tickSize, n as real, OnTick(vwap, tickSize));
  }

  /** The bracket is the price on the tick, or the two neighbouring ticks around the average. */
  lemma BracketAround(vwap: real, tickSize: real)
    requires tickSize > 0.0
    ensures var b := BracketOf(vwap, tickSize);
      if OnTick(vwap, tickSize) == vwap then b.lower == b.upper == vwap
      else b.lower < vwap < b.upper && b.upper - b.lower == tickSize
  {
    hide OnTick;
    AverageNearTick(vwap, tickSize);
  }

  /** The split puts lots on the two prices in proportion to nearness: they amount to the turnover within half a tick. */
  lemma SplitMeetsTurnover(vwap: real, b: Bracket, volume: int)
    requires b.lower <= vwap <= b.upper && b.lower < b.upper && volume >= 0
    ensures var lots := LowerLots(vwap, b, volume);
      var amount := Notional(lots, b.lower) + Notional(volume - lots, b.upper);
      && 0 <= lots <= volume
      && -(b.upper - b.lower) <= 2.0 * (amount - Notional(volume, vwap)) <= b.upper - b.lower
  {
    hide Round, Notional, LowerShare;
    var wish := LowerShare(vwap, b, volume);
    LowerShareIs(vwap, b, volume);
    RoundBetween(wish, volume);
    SplitArithmetic(vwap, b, volume, LowerLots(vwap, b, volume), wish);
  }

  lemma LowerShareIs(vwap: real, b: Bracket, volume: int)
    requires b.lower <= vwap <= b.upper && b.lower < b.upper && volume >= 0
    ensures 0.0 <= LowerShare(vwap, b, volume) <= volume as real
    ensures Notional(volume, b.upper - vwap) == LowerShare(vwap, b, volume) * (b.upper - b.lower)
  {
    var width := b.upper - b.lower;
    var share := (b.upper - vwap) / width;
    ShareIsPart(share, b.upper - vwap, width);
    WishIsPart(share, volume as real, LowerShare(vwap, b, volume));
    WishInMoney(share, width, volume as real, LowerShare(vwap, b, volume), b.upper - vwap);
  }

  lemma ShareIsPart(share: real, part: real, width: real)
    requires 0.0 <= part <= width && width > 0.0 && share == part / width
    ensures 0.0 <= share <= 1.0 && share * width == part
  {
    if share < 0.0 {
      TimesMonotone(share, 0.0, width);
    }
    if share > 1.0 {
      TimesMonotone(1.0, share, width);
    }
  }

  lemma WishIsPart(share: real, volume: real, wish: real)
    requires 0.0 <= share <= 1.0 && volume >= 0.0 && wish == share * volume
    ensures 0.0 <= wish <= volume
  {
    if volume > 0.0 {
      TimesMonotone(0.0, share, volume);
      TimesMonotone(share, 1.0, volume);
    }
  }

  lemma RoundBetween(x: real, n: int)
    requires 0.0 <= x <= n as real
    ensures 0 <= Round(x) <= n && -0.5 <= x - Round(x) as real <= 0.5
  {
  }

  lemma SplitArithmetic(vwap: real, b: Bracket, volume: int, lots: int, wish: real)
    requires b.lower < b.upper && Notional(volume, b.upper - vwap) == wish * (b.upper - b.lower)
    requires -0.5 <= wish - lots as real <= 0.5
    ensures var amount, width := Notional(lots, b.lower) + Notional(volume - lots, b.upper), b.upper - b.lower;
      -width <= 2.0 * (amount - Notional(volume, vwap)) <= width
  {
    var width, off := b.upper - b.lower, wish - lots as real;
    var amount := Notional(lots, b.lower) + Notional(volume - lots, b.upper);
    NotionalDifference(volume, lots, b.upper);
    NotionalSpread(lots, b.upper, b.lower);
    NotionalSpread(volume, b.upper, vwap);
    assert Notional(lots, width) == lots as real * width;
    assert off * width == wish * width - lots as real * width;
    assert amount - Notional(volume, vwap) == off * width;
    HalfOf(off, width, off * width);
    HalfOf(-off, width, -off * width);
  }

  lemma WishInMoney(share: real, width: real, volume: real, wish: real, part: real)
    requires share * width == part && wish == share * volume
    ensures volume * part == wish * width
  {
    assert volume * (share * width) == (share * volume) * width;
  }

  /** All lots go to a positive price, so that none is filtered away: the average is at least a tick, or so little below one
      that every lot is rounded up to it. */
  predicate Mode0Priceable(vwap: real, volume: int, model: CostModel) {
    var tick := TickSize(model);
    vwap >= tick || (vwap > 0.0 && 2.0 * Notional(volume, tick - vwap) < tick)
  }

  /** The two prices are multiples of the tick, so they are positive from one tick on. */
  lemma BracketIsPositive(vwap: real, tickSize: real)
    requires tickSize > 0.0
    ensures var b := BracketOf(vwap, tickSize);
      && (vwap >= tickSize ==> b.lower > 0.0 && b.upper > 0.0)
      && (0.0 < vwap < tickSize ==> b.lower == 0.0 && b.upper == tickSize)
      && (vwap <= 0.0 ==> b.upper <= 0.0)
  {
    hide Round;
    var n, rounded := Round(vwap / tickSize), OnTick(vwap, tickSize);
    AverageNearTick(vwap, tickSize);
    assert rounded == n as real * tickSize;
    Multiples(n, tickSize, rounded);
  }

  /** A multiple of a tick is negative by a tick or more, zero, a tick, or two ticks or more. */
  lemma Multiples(n: int, tickSize: real, price: real)
    requires tickSize > 0.0 && price == n as real * tickSize
    ensures price <= -tickSize || price == 0.0 || price == tickSize || price >= 2.0 * tickSize
  {
    if n < 0 {
      TimesMonotone(n as real, -1.0, tickSize);
    } else if n > 1 {
      TimesMonotone(2.0, n as real, tickSize);
    }
  }

  /** Just below one tick, the lower price (zero) gets no lot exactly if the wish for it is below a half. */
  lemma NoneAtZero(vwap: real, volume: int, tickSize: real)
    requires 0.0 < vwap < tickSize && volume > 0
    ensures LowerLots(vwap, Bracket(0.0, tickSize), volume) == 0 <==> 2.0 * Notional(volume, tickSize - vwap) < tickSize
  {
    hide Round, LowerShare, Notional;
    var b := Bracket(0.0, tickSize);
    var wish := LowerShare(vwap, b, volume);
    LowerShareIs(vwap, b, volume);
    RoundBetween(wish, volume);
    RoundsToZero(wish);
    HalfExactly(wish, tickSize, wish * tickSize);
  }

  lemma RoundsToZero(x: real)
    requires x >= 0.0
    ensures Round(x) == 0 <==> x < 0.5
  {
  }

  lemma HalfExactly(x: real, y: real, product: real)
    requires y > 0.0 && product == x * y
    ensures x < 0.5 <==> 2.0 * product < y
  {
    if x < 0.5 {
      TimesMonotone(x, 0.5, y);
    } else {
      TimesMonotone(0.5, x, y);
    }
  }

  /** Every price that receives lots is positive. */
  predicate NothingFiltered(vwap: real, volume: int, model: CostModel) {
    var b := BracketOf(vwap, TickSize(model));
    if b.upper - b.lower < PRICE_EPSILON then OnTick(vwap, TickSize(model)) > 0.0
    else
      && (LowerLots(vwap, b, volume) > 0 ==> b.lower > 0.0)
      && (LowerLots(vwap, b, volume) < volume ==> b.upper > 0.0)
  }

  lemma PriceableExactly(vwap: real, volume: int, model: CostModel)
    requires volume > 0
    ensures NothingFiltered(vwap, volume, model) <==> Mode0Priceable(vwap, volume, model)
  {
    hide OnTick, LowerLots, Notional;
    var tick := TickSize(model);
    var b := BracketOf(vwap, tick);
    BracketAround(vwap, tick);
    BracketIsPositive(vwap, tick);
    if 0.0 < vwap < tick {
      NoneAtZero(vwap, volume, tick);
      assert b == Bracket(0.0, tick);
    }
    if b.lower < b.upper {
      SplitMeetsTurnover(vwap, b, volume);
    }
  }

  /** Mode 0 adds up to the volume exactly when it is priceable. */
  lemma Mode0ConservesVolume(vwap: real, volume: int, last: real, model: CostModel)
    requires volume > 0
    ensures NonNegative(Mode0(vwap, volume, last, model))
    ensures Total(Mode0(vwap, volume, last, model)) == volume <==> Mode0Priceable(vwap, volume, model)
  {
    hide Round, OnTick, TickSize, AddVolume, Key, Mode0Priceable;
    PriceableExactly(vwap, volume, model);
    var scale, b := model.priceScale, BracketOf(vwap, TickSize(model));
    AddVolumeTotal(map[], OnTick(vwap, TickSize(model)), volume, scale);
    if b.upper - b.lower >= PRICE_EPSILON {
      var lowerLots := LowerLots(vwap, b, volume);
      assert 0 <= lowerLots <= volume;
      AddVolumeTotal(map[], b.lower, lowerLots, scale);
      var lower := AddVolume(map[], b.lower, lowerLots, scale);
      AddVolumeTotal(lower, b.upper, volume - lowerLots, scale);
      var both := AddVolume(lower, b.upper, volume - lowerLots, scale);
      RepresentLastKeepsTotal(both, last, b, scale);
    }
  }

  lemma RepresentLastKeepsTotal(h: Histogram, last: real, b: Bracket, scale: int)
    requires NonNegative(h)
    ensures NonNegative(RepresentLast(h, last, b, scale)) && Total(RepresentLast(h, last, b, scale)) == Total(h)
  {
    hide Key, AbsReal;
    var key := Key(last, scale);
    if key !in h {
      if VolumeAt(h, Key(b.lower, scale)) > 0 {
        MoveOneKeepsTotal(h, Key(b.lower, scale), key);
      }
      if VolumeAt(h, Key(b.upper, scale)) > 0 {
        MoveOneKeepsTotal(h, Key(b.upper, scale), key);
      }
    }
  }

  lemma TimesMonotone(x: real, y: real, z: real)
    requires x <= y && z > 0.0
    ensures x * z <= y * z
    ensures x < y ==> x * z < y * z
  {
    assert (y - x) * z >= 0.0;
  }

  // ---- The lattice: the least assumption consistent with the turnover ----

  /** The prices from `low` to `high` in steps. */
  function LatticeSize(low: int, high: int, step: int): (n: nat)
    requires low <= high && step > 0
    ensures n > 0
  {
    (high - low) / step + 1
  }

  function Lattice(low: int, high: int, step: int): (prices: seq<int>)
    requires low <= high && step > 0
    ensures |prices| == LatticeSize(low, high, step)
  {
    seq(LatticeSize(low, high, step), i => low + i * step)
  }

  function Distance(a: int, b: int): int {
    if a >= b then a - b else b - a
  }

  /** The first of the leading `n` prices that is nearest to `target`. */
  function Nearest(prices: seq<int>, target: int, n: nat): (best: nat)
    requires 0 < n <= |prices|
    ensures best < n
    ensures forall i :: 0 <= i < n ==> Distance(prices[best], target) <= Distance(prices[i], target)
    ensures forall i :: 0 <= i < best ==> Distance(prices[best], target) < Distance(prices[i], target)
  {
    if n == 1 then 0
    else
      var before := Nearest(prices, target, n - 1);
      if Distance(prices[n - 1], target) < Distance(prices[before], target) then n - 1 else before
  }

  datatype Spread = Spread(lots: seq<int>, left: int)

  /** Lots the greedy moves by `d` (a non-positive number means none), and the steps then left. */
  function LotsToMove(movable: int, needed: int, d: int): int
    requires d > 0
  {
    Min(movable, needed / d)
  }

  function StepsLeft(needed: int, lots: int, d: int): int {
    needed - lots * d
  }

  /** `needed` steps can be made by moving `movable` lots, each by at most `d`. */
  predicate Reachable(needed: int, movable: int, d: int) {
    needed <= d * movable
  }

  /** Greedy redistribution: from distance `d` down, move as many of the `movable` lots at `center` as the remaining
      steps allow; a lot moved by `d` uses up `d` steps. */
  function Redistribute(lots: seq<int>, center: int, up: bool, movable: int, needed: int, d: nat): (s: Spread)
    requires 0 <= center < |lots| && 0 <= (if up then center + d else center - d) < |lots|
    ensures |s.lots| == |lots|
    decreases d
  {
    if d == 0 then Spread(lots, needed)
    else
      var k := LotsToMove(movable, needed, d);
      var target := if up then center + d else center - d;
      if k <= 0 then Redistribute(lots, center, up, movable, needed, d - 1)
      else Redistribute(lots[center := lots[center] - k][target := lots[target] + k], center, up,
                        movable - k, StepsLeft(needed, k, d), d - 1)
  }

  function Sum(lots: seq<int>): int {
    if lots == [] then 0 else Sum(lots[..|lots| - 1]) + lots[|lots| - 1]
  }

  /** Sum of index times lots: the amount, in steps above the lowest price. */
  function Moment(lots: seq<int>): int {
    if lots == [] then 0 else Moment(lots[..|lots| - 1]) + (|lots| - 1) * lots[|lots| - 1]
  }

  lemma {:induction false} SumUpdate(lots: seq<int>, i: int, x: int)
    requires 0 <= i < |lots|
    ensures Sum(lots[i := x]) == Sum(lots) + x - lots[i]
    ensures Moment(lots[i := x]) == Moment(lots) + i * (x - lots[i])
  {
    var last := |lots| - 1;
    if i < last {
      SumUpdate(lots[..last], i, x);
      assert lots[i := x][..last] == lots[..last][i := x];
    } else {
      assert lots[i := x][..last] == lots[..last];
    }
  }

  /** One greedy move keeps success possible exactly when it was. */
  lemma GreedyChoice(movable: int, needed: int, d: int)
    requires movable >= 0 && needed >= 0 && d > 0
    ensures var k := LotsToMove(movable, needed, d);
      && 0 <= k <= movable && StepsLeft(needed, k, d) >= 0 && (k == 0 ==> StepsLeft(needed, k, d) == needed)
      && (Reachable(needed, movable, d) <==> Reachable(StepsLeft(needed, k, d), movable - k, d - 1))
  {
    var q, r := needed / d, needed % d;
    if q < movable {
      WithinReach(q, r, d, movable);
    } else {
      OutOfLots(q, r, d, movable);
    }
  }

  lemma WithinReach(q: int, r: int, d: int, movable: int)
    requires 0 <= q < movable && 0 <= r < d
    ensures q * d + r <= d * movable && r <= (d - 1) * (movable - q)
  {
    var spare := movable - q - 1;
    assert d * movable == q * d + d + d * spare;
    assert (d - 1) * (movable - q) == (d - 1) + (d - 1) * spare;
    assert d * spare >= 0 && (d - 1) * spare >= 0;
  }

  lemma OutOfLots(q: int, r: int, d: int, movable: int)
    requires 0 <= movable <= q && 0 <= r < d
    ensures q * d + r >= movable * d && (d - 1) * (movable - movable) == 0 && movable * d == d * movable
  {
    assert q * d == movable * d + (q - movable) * d;
    assert (q - movable) * d >= 0;
  }

  /** The greedy ends with no steps left exactly when `needed` is within reach of the movable lots; it never makes a
      cell negative, loses no lot, and shifts the amount by just the steps it used. */
  lemma {:induction false} RedistributeLaws(lots: seq<int>, center: int, up: bool, movable: int, needed: int, d: nat)
    requires 0 <= center < |lots| && 0 <= (if up then center + d else center - d) < |lots|
    requires needed >= 0 && lots[center] == movable && forall i :: 0 <= i < |lots| ==> lots[i] >= 0
    ensures var s := Redistribute(lots, center, up, movable, needed, d);
      && s.left >= 0
      && (s.left == 0 <==> Reachable(needed, movable, d))
      && (forall i :: 0 <= i < |s.lots| ==> s.lots[i] >= 0)
      && Sum(s.lots) == Sum(lots)
      && Moment(s.lots) == Moment(lots) + (if up then needed - s.left else s.left - needed)
    decreases d
  {
    hide LotsToMove, StepsLeft, Reachable, Sum, Moment;
    if d == 0 {
      NothingReachable(needed, movable);
    } else {
      var k := LotsToMove(movable, needed, d);
      var target := if up then center + d else center - d;
      GreedyChoice(movable, needed, d);
      if k <= 0 {
        RedistributeLaws(lots, center, up, movable, needed, d - 1);
      } else {
        var taken := lots[center := lots[center] - k];
        var moved := taken[target := lots[target] + k];
        MoveLots(lots, center, target, k);
        ShiftMoment(center, up, d, needed, k);
        RedistributeLaws(moved, center, up, movable - k, StepsLeft(needed, k, d), d - 1);
      }
    }
  }

  lemma NothingReachable(needed: int, movable: int)
    requires needed >= 0
    ensures Reachable(needed, movable, 0) <==> needed == 0
  {
  }

  lemma MoveLots(lots: seq<int>, from: int, to: int, k: int)
    requires 0 <= from < |lots| && 0 <= to < |lots| && from != to
    ensures var moved := lots[from := lots[from] - k][to := lots[to] + k];
      Sum(moved) == Sum(lots) && Moment(moved) == Moment(lots) + (to - from) * k
  {
    var taken := lots[from := lots[from] - k];
    SumUpdate(lots, from, lots[from] - k);
    SumUpdate(taken, to, lots[to] + k);
    assert from * (-k) + to * k == (to - from) * k;
  }

  lemma ShiftMoment(center: int, up: bool, d: int, needed: int, k: int)
    ensures var target := if up then center + d else center - d;
      (target - center) * k
      == if up then needed - StepsLeft(needed, k, d) else StepsLeft(needed, k, d) - needed
  {
    assert d * k == k * d;
  }

  /** The histogram of a lattice: cells that hold lots. */
  function ToHistogram(prices: seq<int>, lots: seq<int>): Histogram
    requires |prices| == |lots|
  {
    if lots == [] then map[]
    else
      var last := |lots| - 1;
      var before := ToHistogram(prices[..last], lots[..last]);
      if lots[last] > 0 then before[prices[last] := VolumeAt(before, prices[last]) + lots[last]] else before
  }

  /** Price times volume over a histogram. */
  ghost function Amount(h: Histogram): int {
    Total(Weighted(h))
  }

  ghost function Weighted(h: Histogram): map<int, int> {
    map key | key in h :: PriceTimesLots(key, h[key])
  }

  lemma MoreLots(price: int, lots: int, x: int)
    ensures PriceTimesLots(price, lots + x) == PriceTimesLots(price, lots) + PriceTimesLots(price, x)
    ensures PriceTimesLots(price, 0) == 0
  {
  }

  lemma AmountUpdate(h: Histogram, key: int, x: int)
    ensures Amount(h[key := VolumeAt(h, key) + x]) == Amount(h) + PriceTimesLots(key, x)
  {
    hide PriceTimesLots;
    var v := VolumeAt(h, key) + x;
    assert Weighted(h[key := v]) == Weighted(h)[key := PriceTimesLots(key, v)];
    TotalUpdate(Weighted(h), key, PriceTimesLots(key, v));
    MoreLots(key, VolumeAt(h, key), x);
  }

  lemma {:induction false} ToHistogramTotal(prices: seq<int>, lots: seq<int>)
    requires |prices| == |lots| && forall i :: 0 <= i < |lots| ==> lots[i] >= 0
    ensures NonNegative(ToHistogram(prices, lots)) && Total(ToHistogram(prices, lots)) == Sum(lots)
    decreases |lots|
  {
    if lots != [] {
      var last := |lots| - 1;
      ToHistogramTotal(prices[..last], lots[..last]);
      var before := ToHistogram(prices[..last], lots[..last]);
      TotalUpdate(before, prices[last], VolumeAt(before, prices[last]) + lots[last]);
    }
  }

  lemma {:induction false} ToHistogramAmount(low: int, step: int, prices: seq<int>, lots: seq<int>)
    requires |prices| == |lots|
    requires forall i :: 0 <= i < |prices| ==> prices[i] == low + i * step
    requires forall i :: 0 <= i < |lots| ==> lots[i] >= 0
    ensures Amount(ToHistogram(prices, lots)) == LatticeAmount(low, step, Sum(lots), Moment(lots))
    decreases |lots|
  {
    hide Amount, PriceTimesLots, LatticeAmount;
    if lots == [] {
      NoAmount(low, step);
    } else {
      var last := |lots| - 1;
      ToHistogramAmount(low, step, prices[..last], lots[..last]);
      AmountUpdate(ToHistogram(prices[..last], lots[..last]), prices[last], lots[last]);
      AmountArithmetic(low, step, last, Sum(lots[..last]), Moment(lots[..last]), lots[last]);
    }
  }

  function PriceTimesLots(price: int, lots: int): int {
    price * lots
  }

  /** The amount of lots on a lattice, from their number and their moment. */
  function LatticeAmount(low: int, step: int, sum: int, moment: int): int {
    low * sum + step * moment
  }

  lemma NoAmount(low: int, step: int)
    ensures Amount(map[]) == LatticeAmount(low, step, 0, 0)
  {
    assert Weighted(map[]) == map[];
  }

  lemma AmountArithmetic(low: int, step: int, i: int, sum: int, moment: int, x: int)
    ensures LatticeAmount(low, step, sum, moment) + PriceTimesLots(low + i * step, x)
         == LatticeAmount(low, step, sum + x, moment + i * x)
    ensures PriceTimesLots(low + i * step, 0) == 0
  {
    assert (low + i * step) * x == low * x + step * (i * x);
  }

  // ---- How far mode 0 is from the turnover ----

  /** A price in price keys, before rounding. */
  function Scaled(price: real, scale: int): real {
    price * Max(scale, 1) as real
  }

  lemma KeyNear(price: real, scale: int)
    ensures -1.0 <= 2.0 * (Key(price, scale) as real - Scaled(price, scale)) <= 1.0
  {
    hide Max;
  }

  /** Keys tell prices apart that differ by a unit of the scale. */
  lemma KeyOfUnit(n: int, scale: int)
    requires scale > 0
    ensures Key(n as real / scale as real, scale) == n
  {
    var price := n as real / scale as real;
    assert price * scale as real == n as real;
    RoundExact(n);
  }

  lemma RoundExact(n: int)
    ensures Round(n as real) == n
  {
  }

  lemma KeyedAmount(price: real, lots: int, scale: int)
    requires lots >= 0
    ensures var off := PriceTimesLots(Key(price, scale), lots) as real - Scaled(Notional(lots, price), scale);
      -(lots as real) <= 2.0 * off <= lots as real
  {
    hide Key, Max;
    KeyNear(price, scale);
    KeyedArithmetic(Key(price, scale), price, Max(scale, 1) as real, lots);
  }

  lemma KeyedArithmetic(key: int, price: real, scale: real, lots: int)
    requires lots >= 0 && -1.0 <= 2.0 * (key as real - price * scale) <= 1.0
    ensures var off := PriceTimesLots(key, lots) as real - Notional(lots, price) * scale;
      -(lots as real) <= 2.0 * off <= lots as real
  {
    var d := key as real - price * scale;
    assert (key * lots) as real == key as real * lots as real;
    assert Notional(lots, price) * scale == lots as real * (price * scale);
    assert PriceTimesLots(key, lots) as real - Notional(lots, price) * scale == d * lots as real;
    HalfOf(d, lots as real, d * lots as real);
    HalfOf(-d, lots as real, -d * lots as real);
  }

  lemma AddVolumeAmount(h: Histogram, price: real, volume: int, scale: int)
    ensures Amount(AddVolume(h, price, volume, scale))
         == Amount(h) + (if price <= 0.0 || volume <= 0 then 0 else PriceTimesLots(Key(price, scale), volume))
  {
    hide Key, Amount, PriceTimesLots;
    AmountUpdate(h, Key(price, scale), volume);
  }

  /** Moving a lot moves the amount by the distance. */
  lemma MoveOneAmount(h: Histogram, source: int, target: int)
    ensures Amount(MoveOne(h, source, target)) == Amount(h) + if VolumeAt(h, source) > 0 then target - source else 0
  {
    hide Amount;
    var taken := h[source := VolumeAt(h, source) + -1];
    AmountUpdate(h, source, -1);
    AmountUpdate(taken, target, 1);
  }

  /** The last trade's price is given a lot, unless it has some already: from the nearer price if it has one, else from the
      upper; so the amount moves by the distance of the last price from one of the two. */
  lemma RepresentLastMovesOneLot(h: Histogram, last: real, b: Bracket, scale: int)
    ensures var key, lower, upper := Key(last, scale), Key(b.lower, scale), Key(b.upper, scale);
      var moved := Amount(RepresentLast(h, last, b, scale)) - Amount(h);
      if key in h then moved == 0
      else if AbsReal(last - b.lower) <= AbsReal(last - b.upper) && VolumeAt(h, lower) > 0 then moved == key - lower
      else if VolumeAt(h, upper) > 0 then moved == key - upper
      else moved == 0
  {
    hide Amount, Key, MoveOne;
    MoveOneAmount(h, Key(b.lower, scale), Key(last, scale));
    MoveOneAmount(h, Key(b.upper, scale), Key(last, scale));
  }

  /** Before the transfer, the two prices' lots amount to the turnover within half a tick, and half a key for each lot. */
  lemma SplitAmount(vwap: real, b: Bracket, volume: int, scale: int)
    requires b.lower < vwap < b.upper && volume > 0
    requires LowerLots(vwap, b, volume) > 0 ==> b.lower > 0.0
    requires LowerLots(vwap, b, volume) < volume ==> b.upper > 0.0
    ensures var lots := LowerLots(vwap, b, volume);
      var both := AddVolume(AddVolume(map[], b.lower, lots, scale), b.upper, volume - lots, scale);
      var off := Amount(both) as real - Scaled(Notional(volume, vwap), scale);
      2.0 * AbsReal(off) <= Scaled(b.upper - b.lower, scale) + volume as real
  {
    hide Amount, Key, AddVolume, LowerLots, Notional, PriceTimesLots, Scaled;
    var lots := LowerLots(vwap, b, volume);
    SplitMeetsTurnover(vwap, b, volume);
    AddVolumeAmount(map[], b.lower, lots, scale);
    AddVolumeAmount(AddVolume(map[], b.lower, lots, scale), b.upper, volume - lots, scale);
    NoAmount(0, 0);
    NoLots(Key(b.lower, scale), Key(b.upper, scale));
    KeyedAmount(b.lower, lots, scale);
    KeyedAmount(b.upper, volume - lots, scale);
    ScaledSum(Notional(lots, b.lower), Notional(volume - lots, b.upper), Notional(volume, vwap), scale);
    ScaledBound(Notional(lots, b.lower) + Notional(volume - lots, b.upper) - Notional(volume, vwap), b.upper - b.lower,
                scale);
  }

  lemma NoLots(a: int, b: int)
    ensures PriceTimesLots(a, 0) == 0 && PriceTimesLots(b, 0) == 0
  {
  }

  lemma ScaledSum(x: real, y: real, z: real, scale: int)
    ensures Scaled(x + y - z, scale) == Scaled(x, scale) + Scaled(y, scale) - Scaled(z, scale)
  {
    var m := Max(scale, 1) as real;
    assert (x + y - z) * m == x * m + y * m - z * m;
  }

  lemma ScaledBound(x: real, y: real, scale: int)
    requires -y <= 2.0 * x <= y
    ensures -Scaled(y, scale) <= 2.0 * Scaled(x, scale) <= Scaled(y, scale)
  {
    var m := Max(scale, 1) as real;
    assert (y - 2.0 * x) * m >= 0.0 && (y + 2.0 * x) * m >= 0.0;
  }

  /** Mode 0 explains the turnover: the amount it comes to is off by at most half a tick, half a key for each lot, and the
      distance of the last price from the two prices of the split. */
  lemma Mode0MeetsTurnover(vwap: real, volume: int, last: real, model: CostModel)
    requires volume > 0 && Mode0Priceable(vwap, volume, model)
    ensures var scale, b := model.priceScale, BracketOf(vwap, TickSize(model));
      var off := Amount(Mode0(vwap, volume, last, model)) as real - Scaled(Notional(volume, vwap), scale);
      var shift := Max(Distance(Key(last, scale), Key(b.lower, scale)), Distance(Key(last, scale), Key(b.upper, scale)));
      2.0 * AbsReal(off) <= Scaled(TickSize(model), scale) + volume as real + 2.0 * shift as real
  {
    hide Amount, Key, AddVolume, LowerLots, Notional, PriceTimesLots, Scaled, OnTick, Mode0Priceable, RepresentLast;
    var scale, tick := model.priceScale, TickSize(model);
    var b := BracketOf(vwap, tick);
    PriceableExactly(vwap, volume, model);
    BracketAround(vwap, tick);
    ScaledBound(0.0, tick, scale);
    if b.lower == b.upper {
      AddVolumeAmount(map[], vwap, volume, scale);
      NoAmount(0, 0);
      KeyedAmount(vwap, volume, scale);
    } else {
      var lots := LowerLots(vwap, b, volume);
      var both := AddVolume(AddVolume(map[], b.lower, lots, scale), b.upper, volume - lots, scale);
      SplitAmount(vwap, b, volume, scale);
      RepresentLastMovesOneLot(both, last, b, scale);
    }
  }

  // ---- The whole inference ----

  function SyntheticVwap(previous: Quote, now: Quote, volume: int, model: CostModel): real
    requires volume > 0
  {
    var turnover := now.turnover - previous.turnover;
    if turnover > 0.0 && model.multiplier > 0.0 then turnover / volume as real / model.multiplier else now.last
  }

  function PriceStep(model: CostModel): (step: int)
    ensures step > 0
  {
    Max(1, Round(TickSize(model) * model.priceScale as real))
  }

  datatype Grid = Grid(prices: seq<int>, center: nat)

  function LowestKey(previous: Quote, now: Quote, vwap: real, model: CostModel): int {
    var b := BracketOf(vwap, TickSize(model));
    Min(Key(b.lower, model.priceScale), Min(Key(previous.bid, model.priceScale), Key(now.bid, model.priceScale)))
  }

  function HighestKey(previous: Quote, now: Quote, vwap: real, model: CostModel): int {
    var b := BracketOf(vwap, TickSize(model));
    Max(Key(b.upper, model.priceScale), Max(Key(previous.ask, model.priceScale), Key(now.ask, model.priceScale)))
  }

  function AverageKey(vwap: real, model: CostModel): int {
    Round(vwap * model.priceScale as real)
  }

  /** The prices between the extreme quotes and the bracket, and the one nearest to the average price. */
  function GridOf(previous: Quote, now: Quote, vwap: real, model: CostModel): (g: Grid)
    ensures g.center < |g.prices|
  {
    var low, high := LowestKey(previous, now, vwap, model), HighestKey(previous, now, vwap, model);
    var prices := Lattice(Min(low, high), Max(low, high), PriceStep(model));
    Grid(prices, Nearest(prices, AverageKey(vwap, model), |prices|))
  }

  /** The turnover to explain, in price keys times lots. */
  function TargetAmount(previous: Quote, now: Quote, volume: int, g: Grid, model: CostModel): int
    requires g.center < |g.prices|
  {
    if model.multiplier > 0.0
    then Round(TurnoverInKeys(previous, now, model))
    else g.prices[g.center] * volume
  }

  /** The rise of the turnover, per contract unit, in price keys. */
  function TurnoverInKeys(previous: Quote, now: Quote, model: CostModel): real
    requires model.multiplier > 0.0
  {
    (now.turnover - previous.turnover) / model.multiplier * model.priceScale as real
  }

  /** The lattice starts at the lowest of the bracket and both bids, rises in price steps, and ends within a step of the
      highest of the bracket and both asks (or the reverse, should they be crossed); its center is a price nearest to the
      average. */
  lemma GridSpans(previous: Quote, now: Quote, vwap: real, model: CostModel)
    ensures var g, b, scale := GridOf(previous, now, vwap, model), BracketOf(vwap, TickSize(model)), model.priceScale;
      var bids := Min(Key(b.lower, scale), Min(Key(previous.bid, scale), Key(now.bid, scale)));
      var asks := Max(Key(b.upper, scale), Max(Key(previous.ask, scale), Key(now.ask, scale)));
      var step := PriceStep(model);
      && g.prices[0] == Min(bids, asks)
      && g.prices[|g.prices| - 1] <= Max(bids, asks) < g.prices[|g.prices| - 1] + step
      && (forall i :: 0 < i < |g.prices| ==> g.prices[i] == g.prices[i - 1] + step)
      && (forall i :: 0 <= i < |g.prices| ==>
            Distance(g.prices[g.center], AverageKey(vwap, model)) <= Distance(g.prices[i], AverageKey(vwap, model)))
      && -1.0 <= 2.0 * (AverageKey(vwap, model) as real - vwap * model.priceScale as real) <= 1.0
  {
    hide Key, PriceStep, BracketOf, Lattice, LatticeSize, Nearest, AverageKey;
    var low, high := LowestKey(previous, now, vwap, model), HighestKey(previous, now, vwap, model);
    LatticeSpans(Min(low, high), Max(low, high), PriceStep(model));
    AverageKeyNear(vwap, model);
  }

  /** The tick size that is configured, if it is not negligible, is the width of the bracket unless the average is on a tick,
      and, within half a key, the step of the lattice, which is at least one key. */
  lemma StepsAreTicks(vwap: real, model: CostModel)
    requires model.tickSize >= PRICE_EPSILON
    ensures var b, step, tick := BracketOf(vwap, TickSize(model)), PriceStep(model), model.tickSize;
      && (if vwap == Round(vwap / tick) as real * tick then b.lower == b.upper else b.upper - b.lower == tick)
      && (if 2.0 * (tick * model.priceScale as real) < 1.0 then step == 1
          else -1.0 <= 2.0 * (step as real - tick * model.priceScale as real) <= 1.0)
  {
    hide Round, BracketOf, OnTick;
    BracketAround(vwap, model.tickSize);
    OnTickIs(vwap, model.tickSize);
    RoundedStep(model.tickSize * model.priceScale as real);
  }

  lemma OnTickIs(vwap: real, tickSize: real)
    requires tickSize > 0.0
    ensures OnTick(vwap, tickSize) == Round(vwap / tickSize) as real * tickSize
  {
  }

  lemma RoundedStep(x: real)
    ensures 2.0 * x < 1.0 ==> Round(x) <= 0
    ensures 2.0 * x >= 1.0 ==> Round(x) >= 1 && -1.0 <= 2.0 * (Round(x) as real - x) <= 1.0
  {
  }

  lemma AverageKeyNear(vwap: real, model: CostModel)
    ensures -1.0 <= 2.0 * (AverageKey(vwap, model) as real - vwap * model.priceScale as real) <= 1.0
  {
  }

  lemma LatticeSpans(low: int, high: int, step: int)
    requires low <= high && step > 0
    ensures var prices := Lattice(low, high, step);
      && prices != [] && prices[0] == low && prices[|prices| - 1] <= high < prices[|prices| - 1] + step
      && (forall i :: 0 < i < |prices| ==> prices[i] == prices[i - 1] + step)
  {
    var prices := Lattice(low, high, step);
    LastMultiple(high - low, step);
    assert prices[|prices| - 1] == low + (high - low) / step * step;
    forall i | 0 < i < |prices| ensures prices[i] == prices[i - 1] + step {
      NextMultiple(i, step);
    }
  }

  lemma LastMultiple(span: int, step: int)
    requires span >= 0 && step > 0
    ensures span / step * step <= span < span / step * step + step
  {
  }

  lemma NextMultiple(i: int, step: int)
    ensures i * step == (i - 1) * step + step
  {
  }

  /** The average price explains the turnover of the tick, contract by contract. */
  lemma VwapExplainsTurnover(previous: Quote, now: Quote, volume: int, model: CostModel)
    requires volume > 0
    ensures var rise := now.turnover - previous.turnover;
      if rise > 0.0 && model.multiplier > 0.0
      then SyntheticVwap(previous, now, volume, model) * volume as real * model.multiplier == rise
      else SyntheticVwap(previous, now, volume, model) == now.last
  {
    var rise := now.turnover - previous.turnover;
    if rise > 0.0 && model.multiplier > 0.0 {
      DivideTwice(rise, volume as real, model.multiplier);
    }
  }

  lemma DivideTwice(x: real, y: real, z: real)
    requires y > 0.0 && z > 0.0
    ensures x / y / z * y * z == x
  {
    var q := x / y;
    var r := q / z;
    assert r * z == q && q * y == x;
    assert r * y * z == r * z * y;
  }

  /** All lots at the center. */
  function AtCenter(g: Grid, volume: int): (lots: seq<int>)
    requires g.center < |g.prices|
    ensures |lots| == |g.prices| && lots[g.center] == volume
  {
    seq(|g.prices|, i => if i == g.center then volume else 0)
  }

  function Reach(g: Grid, up: bool): (d: nat)
    requires g.center < |g.prices|
    ensures if up then g.center + d < |g.prices| else g.center - d >= 0
  {
    if up then |g.prices| - 1 - g.center else g.center
  }

  /** Whole steps in a difference of amounts. */
  function StepsFor(difference: int, step: int): int
    requires step > 0
  {
    Round(Distance(difference, 0) as real / step as real)
  }

  function SpreadOver(g: Grid, volume: int, difference: int, step: int): (s: Spread)
    requires g.center < |g.prices| && step > 0
    ensures |s.lots| == |g.prices|
  {
    var lots := AtCenter(g, volume);
    if difference == 0 then Spread(lots, 0)
    else Redistribute(lots, g.center, difference > 0, volume, StepsFor(difference, step), Reach(g, difference > 0))
  }

  function LatticeFlow(previous: Quote, now: Quote, volume: int, model: CostModel): Histogram
    requires volume > 0
  {
    var vwap := SyntheticVwap(previous, now, volume, model);
    var g := GridOf(previous, now, vwap, model);
    var difference := TargetAmount(previous, now, volume, g, model) - g.prices[g.center] * volume;
    var s := SpreadOver(g, volume, difference, PriceStep(model));
    if s.left != 0 then Mode0(vwap, volume, now.last, model) else ToHistogram(g.prices, s.lots)
  }

  /** `infer_synthetic_trade_flow`. */
  function InferSyntheticFlow(previous: Option<Quote>, now: Quote, model: CostModel): Flow {
    var volume := DeltaVolume(previous, now);
    if volume <= 0 then Flow(map[], now.last, 0)
    else
      var vwap := SyntheticVwap(previous.value, now, volume, model);
      Flow(if volume == 1 then AddVolume(map[], now.last, 1, model.priceScale)
           else if model.matchingMode == 0 then Mode0(vwap, volume, now.last, model)
           else LatticeFlow(previous.value, now, volume, model),
           vwap, volume)
  }

  lemma {:induction false} SumOfCenter(lots: seq<int>, center: nat, volume: int)
    requires forall i :: 0 <= i < |lots| ==> lots[i] == if i == center then volume else 0
    ensures Sum(lots) == if center < |lots| then volume else 0
    ensures Moment(lots) == if center < |lots| then center * volume else 0
  {
    if lots != [] {
      SumOfCenter(lots[..|lots| - 1], center, volume);
    }
  }

  /** The lattice can explain the turnover: the whole steps it is off by are within reach of the lots at the center. */
  predicate LatticeReaches(previous: Quote, now: Quote, volume: int, model: CostModel)
    requires volume > 0
  {
    var vwap := SyntheticVwap(previous, now, volume, model);
    var g := GridOf(previous, now, vwap, model);
    var difference := TargetAmount(previous, now, volume, g, model) - g.prices[g.center] * volume;
    StepsFor(difference, PriceStep(model)) <= Reach(g, difference > 0) * volume
  }

  /** Laws of the lattice on any grid: success exactly within reach, volume kept, amount within half a step. */
  lemma SpreadLaws(g: Grid, low: int, step: int, volume: int, target: int)
    requires volume > 0 && step > 0 && g.center < |g.prices|
    requires forall i :: 0 <= i < |g.prices| ==> g.prices[i] == low + i * step
    ensures var difference := target - g.prices[g.center] * volume;
      var s := SpreadOver(g, volume, difference, step);
      && (s.left == 0 <==> Reachable(StepsFor(difference, step), volume, Reach(g, difference > 0)))
      && (s.left == 0 ==>
            var h := ToHistogram(g.prices, s.lots);
            NonNegative(h) && Total(h) == volume && 2 * Distance(Amount(h), target) <= step)
  {
    hide StepsFor, Reachable, Sum, Moment, ToHistogram, NonNegative;
    var difference := target - g.prices[g.center] * volume;
    var lots, s := AtCenter(g, volume), SpreadOver(g, volume, difference, step);
    var needed := StepsFor(difference, step);
    StepsBounds(difference, step, volume, Reach(g, difference > 0));
    SumOfCenter(lots, g.center, volume);
    if difference != 0 {
      RedistributeLaws(lots, g.center, difference > 0, volume, needed, Reach(g, difference > 0));
    }
    if s.left == 0 {
      ToHistogramTotal(g.prices, s.lots);
      ToHistogramAmount(low, step, g.prices, s.lots);
      AmountReached(low, step, g.center, volume, needed, Moment(s.lots), target);
    }
  }

  lemma StepsBounds(difference: int, step: int, volume: int, reach: nat)
    requires step > 0 && volume > 0
    ensures var needed := StepsFor(difference, step);
      && needed >= 0
      && 2 * Distance(Distance(difference, 0), step * needed) <= step
      && (difference == 0 ==> needed == 0 && Reachable(needed, volume, reach))
  {
    var x, n := Distance(difference, 0), StepsFor(difference, step);
    assert AbsReal(x as real / step as real - n as real) <= 0.5;
    assert (step * n) as real == step as real * n as real;
    RoundedQuotient(x as real / step as real, x as real, step as real, n as real, (step * n) as real);
    assert reach * volume >= 0;
  }

  lemma RoundedQuotient(q: real, x: real, step: real, n: real, product: real)
    requires step > 0.0 && q * step == x && -0.5 <= q - n <= 0.5 && product == step * n
    ensures -step <= (x - product) + (x - product) <= step
  {
    var e, f := q - n, n - q;
    assert e * step == x - product;
    assert f * step == product - x;
    HalfOf(e, step, x - product);
    HalfOf(f, step, product - x);
  }

  lemma HalfOf(x: real, y: real, product: real)
    requires x <= 0.5 && y >= 0.0 && product == x * y
    ensures product + product <= y
  {
    assert (0.5 - x) * y >= 0.0;
  }

  lemma AmountReached(low: int, step: int, center: int, volume: int, needed: int, moment: int, target: int)
    requires var difference := target - (low + center * step) * volume;
      && 2 * Distance(Distance(difference, 0), step * needed) <= step
      && moment == center * volume + (if difference > 0 then needed else -needed)
    ensures 2 * Distance(low * volume + step * moment, target) <= step
  {
    assert step * (center * volume + needed) == step * (center * volume) + step * needed;
    assert step * (center * volume - needed) == step * (center * volume) - step * needed;
    assert (low + center * step) * volume == low * volume + step * (center * volume);
  }

  /** The greedy lattice is used exactly when it reaches the turnover; then it keeps the volume and meets the turnover
      within half a price step. Otherwise the inference is mode 0. */
  lemma LatticeMeetsTurnover(previous: Quote, now: Quote, volume: int, model: CostModel)
    requires volume > 0
    ensures var vwap := SyntheticVwap(previous, now, volume, model);
      var g := GridOf(previous, now, vwap, model);
      var h := LatticeFlow(previous, now, volume, model);
      if LatticeReaches(previous, now, volume, model) then
        && NonNegative(h) && Total(h) == volume
        && 2 * Distance(Amount(h), TargetAmount(previous, now, volume, g, model)) <= PriceStep(model)
      else h == Mode0(vwap, volume, now.last, model)
  {
    hide SyntheticVwap, PriceStep, LowestKey, HighestKey, AverageKey, Nearest, TargetAmount, SpreadOver, Mode0,
         StepsFor, ToHistogram, Amount, NonNegative;
    var vwap := SyntheticVwap(previous, now, volume, model);
    var g := GridOf(previous, now, vwap, model);
    var low := Min(LowestKey(previous, now, vwap, model), HighestKey(previous, now, vwap, model));
    SpreadLaws(g, low, PriceStep(model), volume, TargetAmount(previous, now, volume, g, model));
  }

  /** So a lattice that is used explains the turnover of the tick within half a price step and half a key. */
  lemma LatticeExplainsTurnover(previous: Quote, now: Quote, volume: int, model: CostModel)
    requires volume > 0 && model.multiplier > 0.0 && LatticeReaches(previous, now, volume, model)
    ensures var wanted := TurnoverInKeys(previous, now, model);
      && wanted * model.multiplier == (now.turnover - previous.turnover) * model.priceScale as real
      && 2.0 * AbsReal(Amount(LatticeFlow(previous, now, volume, model)) as real - wanted) <= PriceStep(model) as real + 1.0
  {
    hide SyntheticVwap, PriceStep, LatticeReaches, LatticeFlow, Amount, Mode0, GridOf, TurnoverInKeys, Round;
    LatticeMeetsTurnover(previous, now, volume, model);
    KeysOfTurnover(previous, now, model);
  }

  lemma KeysOfTurnover(previous: Quote, now: Quote, model: CostModel)
    requires model.multiplier > 0.0
    ensures TurnoverInKeys(previous, now, model) * model.multiplier
         == (now.turnover - previous.turnover) * model.priceScale as real
  {
    var rise, scale := now.turnover - previous.turnover, model.priceScale as real;
    var q := rise / model.multiplier;
    assert q * model.multiplier == rise;
    assert q * scale * model.multiplier == q * model.multiplier * scale;
  }

  /** All lots have a positive price to go to; the lattice itself filters nothing. */
  predicate SyntheticPriceable(previous: Quote, now: Quote, model: CostModel) {
    var volume := DeltaVolume(Some(previous), now);
    if volume <= 0 then true
    else if volume == 1 then now.last > 0.0
    else
      (model.matchingMode != 0 && LatticeReaches(previous, now, volume, model))
      || Mode0Priceable(SyntheticVwap(previous, now, volume, model), volume, model)
  }

  /** On every path of the inference the histogram is non-negative, and holds all the volume exactly when it is
      priceable. */
  lemma SyntheticFlowConservesVolume(previous: Quote, now: Quote, model: CostModel)
    ensures var flow := InferSyntheticFlow(Some(previous), now, model);
      && NonNegative(flow.byPrice)
      && flow.volume == Max(0, now.volume - previous.volume)
      && (Total(flow.byPrice) == flow.volume <==> SyntheticPriceable(previous, now, model))
  {
    hide SyntheticVwap, LatticeFlow, LatticeReaches, Mode0, Mode0Priceable, Round, GridOf, TargetAmount, PriceStep,
         TickSize;
    var volume := DeltaVolume(Some(previous), now);
    if volume == 1 {
      AddVolumeTotal(map[], now.last, 1, model.priceScale);
    } else if volume > 1 {
      var vwap := SyntheticVwap(previous, now, volume, model);
      Mode0ConservesVolume(vwap, volume, now.last, model);
      LatticeMeetsTurnover(previous, now, volume, model);
    }
  }

  // ---- The loops of the source ----

  method BuildLattice(low: int, high: int, step: int) returns (prices: seq<int>)
    requires low <= high && step > 0
    ensures prices == Lattice(low, high, step)
  {
    prices := [];
    var price := low;
    while price <= high
      invariant price == low + |prices| * step
      invariant |prices| == 0 || price - step <= high
      invariant forall i :: 0 <= i < |prices| ==> prices[i] == low + i * step
      decreases high - price
    {
      prices := prices + [price];
      price := price + step;
    }
    LatticeCount(high - low, step, |prices|);
  }

  lemma LatticeCount(span: int, step: int, n: int)
    requires span >= 0 && step > 0 && n > 0 && (n - 1) * step <= span < n * step
    ensures span / step + 1 == n
  {
    QuotientUnique(span / step, span % step, n - 1, span - (n - 1) * step, step);
  }

  lemma QuotientUnique(q: int, r: int, q': int, r': int, d: int)
    requires 0 <= r < d && 0 <= r' < d && q * d + r == q' * d + r'
    ensures q == q'
  {
    assert (q - q') * d == q * d - q' * d;
    if q > q' {
      MultipleAtLeast(q - q', d);
    } else if q < q' {
      MultipleAtLeast(q' - q, d);
    }
  }

  lemma MultipleAtLeast(a: int, d: int)
    requires a >= 1 && d > 0
    ensures a * d >= d
  {
  }

  method FindNearest(prices: seq<int>, target: int) returns (center: nat)
    requires prices != []
    ensures center == Nearest(prices, target, |prices|)
  {
    center := 0;
    var best := Distance(prices[0], target);
    for index := 1 to |prices|
      invariant center == Nearest(prices, target, index) && best == Distance(prices[center], target)
    {
      var distance := Distance(prices[index], target);
      if distance < best {
        best, center := distance, index;
      }
    }
  }

  /** With no steps or no lots left the greedy changes nothing more. */
  lemma {:induction false} GreedyIsDone(lots: seq<int>, center: int, up: bool, movable: int, needed: int, d: nat)
    requires 0 <= center < |lots| && 0 <= (if up then center + d else center - d) < |lots|
    requires movable >= 0 && needed >= 0 && (movable == 0 || needed == 0)
    ensures Redistribute(lots, center, up, movable, needed, d) == Spread(lots, needed)
    decreases d
  {
    if d > 0 {
      assert LotsToMove(movable, needed, d) <= 0;
      GreedyIsDone(lots, center, up, movable, needed, d - 1);
    }
  }

  method RedistributeLots(lots: array<int>, center: int, up: bool, steps: int, reach: nat) returns (left: int)
    requires 0 <= center < lots.Length && 0 <= (if up then center + reach else center - reach) < lots.Length
    requires steps >= 0 && lots[center] >= 0
    modifies lots
    ensures Spread(lots[..], left)
         == Redistribute(old(lots[..]), center, up, old(lots[center]), steps, reach)
  {
    left := steps;
    var movable, distance := lots[center], reach;
    while distance >= 1 && left > 0 && movable > 0
      invariant 0 <= distance <= reach && left >= 0 && movable >= 0
      invariant Redistribute(lots[..], center, up, movable, left, distance)
             == Redistribute(old(lots[..]), center, up, old(lots[center]), steps, reach)
      decreases distance
    {
      GreedyChoice(movable, left, distance);
      var moved := LotsToMove(movable, left, distance);
      if moved > 0 {
        var target := if up then center + distance else center - distance;
        ghost var before := lots[..];
        lots[center] := lots[center] - moved;
        lots[target] := lots[target] + moved;
        assert lots[..] == before[center := before[center] - moved][target := before[target] + moved];
        movable, left := movable - moved, StepsLeft(left, moved, distance);
      }
      distance := distance - 1;
    }
    if distance > 0 {
      GreedyIsDone(lots[..], center, up, movable, left, distance);
    }
  }

  method CollectHistogram(prices: seq<int>, lots: array<int>) returns (byPrice: Histogram)
    requires |prices| == lots.Length
    ensures byPrice == ToHistogram(prices, lots[..])
  {
    byPrice := map[];
    for index := 0 to |prices|
      invariant byPrice == ToHistogram(prices[..index], lots[..index])
    {
      if lots[index] > 0 {
        byPrice := byPrice[prices[index] := VolumeAt(byPrice, prices[index]) + lots[index]];
      }
      assert prices[..index + 1][..index] == prices[..index] && lots[..index + 1][..index] == lots[..index];
    }
    assert prices[..|prices|] == prices && lots[..|prices|] == lots[..];
  }

  method InferLatticeFlow(previous: Quote, now: Quote, volume: int, model: CostModel) returns (byPrice: Histogram)
    requires volume > 0
    ensures byPrice == LatticeFlow(previous, now, volume, model)
  {
    hide Round, Redistribute, ToHistogram, Nearest, BracketOf, TickSize, Lattice, Mode0;
    var vwap, step := SyntheticVwap(previous, now, volume, model), PriceStep(model);
    var low, high := LowestKey(previous, now, vwap, model), HighestKey(previous, now, vwap, model);
    if low > high {
      low, high := high, low;
    }
    var prices := BuildLattice(low, high, step);
    var center := FindNearest(prices, AverageKey(vwap, model));
    var g := Grid(prices, center);
    assert g == GridOf(previous, now, vwap, model);
    var lots := new int[|prices|](i => 0);
    lots[center] := volume;
    assert lots[..] == AtCenter(g, volume);
    var difference := TargetAmount(previous, now, volume, g, model) - prices[center] * volume;
    var left := 0;
    if difference != 0 {
      var up := difference > 0;
      StepsBounds(difference, step, volume, Reach(g, up));
      left := RedistributeLots(lots, center, up, StepsFor(difference, step), Reach(g, up));
    }
    assert Spread(lots[..], left) == SpreadOver(g, volume, difference, step);
    if left != 0 {
      return Mode0(vwap, volume, now.last, model);
    }
    byPrice := CollectHistogram(prices, lots);
  }
}
