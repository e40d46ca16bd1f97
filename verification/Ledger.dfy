/** The four-bucket position: lots and average cost, long and short, opened today or carried over. */
module Ledger {
  import opened Numeric
  import opened Domain

  /** The money in `lots` at `price` each. Proofs hide its body and reason with the laws below. */
  function Notional(lots: int, price: real): real {
    lots as real * price
  }

  lemma NotionalSum(a: int, b: int, price: real)
    ensures Notional(a + b, price) == Notional(a, price) + Notional(b, price)
  {
  }

  lemma NotionalDifference(a: int, b: int, price: real)
    ensures Notional(a - b, price) == Notional(a, price) - Notional(b, price)
  {
  }

  lemma NotionalSpread(lots: int, x: real, y: real)
    ensures Notional(lots, x - y) == Notional(lots, x) - Notional(lots, y)
  {
  }

  lemma NotionalSign(lots: int, price: real)
    requires lots >= 0
    ensures price >= 0.0 ==> Notional(lots, price) >= 0.0
    ensures lots > 0 && price > 0.0 ==> Notional(lots, price) > 0.0
    ensures lots == 0 ==> Notional(lots, price) == 0.0
  {
  }

  lemma NotionalOfAverage(lots: int, money: real)
    requires lots > 0
    ensures Notional(lots, money / lots as real) == money
    ensures money > 0.0 ==> money / lots as real > 0.0
  {
  }

  datatype Bucket = Bucket(quantity: int, price: real)
  {
    function Cost(): real { Notional(quantity, price) }

    /** No negative lots, and an empty bucket carries no price. */
    predicate Sound() { quantity >= 0 && (quantity == 0 ==> price == 0.0) }

    /** Lots carry a positive average price: only then does closing them book a profit. */
    predicate Costed() { quantity > 0 ==> price > 0.0 }
  }

  datatype Position = Position(longToday: Bucket, longYesterday: Bucket, shortToday: Bucket, shortYesterday: Bucket)
  {
    function Long(): int { longToday.quantity + longYesterday.quantity }

    function Short(): int { shortToday.quantity + shortYesterday.quantity }

    function Net(): int { Long() - Short() }

    /** What the open long lots cost, less what the open short lots were sold for. */
    function OpenCost(): real {
      longToday.Cost() + longYesterday.Cost() - shortToday.Cost() - shortYesterday.Cost()
    }

    predicate NonNegative() {
      longToday.quantity >= 0 && longYesterday.quantity >= 0 && shortToday.quantity >= 0 && shortYesterday.quantity >= 0
    }

    predicate Sound() {
      longToday.Sound() && longYesterday.Sound() && shortToday.Sound() && shortYesterday.Sound()
    }

    predicate Costed() {
      longToday.Costed() && longYesterday.Costed() && shortToday.Costed() && shortYesterday.Costed()
    }
  }

  const EMPTY := Bucket(0, 0.0)
  const FLAT := Position(EMPTY, EMPTY, EMPTY, EMPTY)

  datatype CostModel = CostModel(
    multiplier: real, commission: real, tickSize: real, queueAheadRatio: real, matchingMode: int, priceScale: int)

  const DEFAULT_COSTS := CostModel(1.0, 0.0, 1.0, 1.0, 2, 100)

  const INT_MAX := 0x7fff_ffff

  function WeightedAveragePrice(q1: int, p1: real, q2: int, p2: real): real {
    if q1 + q2 <= 0 then 0.0 else (Notional(q1, p1) + Notional(q2, p2)) / (q1 + q2) as real
  }

  /** Adding the lots of `extra` to `b` at their blended cost. */
  function Blend(b: Bucket, extra: Bucket): Bucket {
    Bucket(b.quantity + extra.quantity, WeightedAveragePrice(b.quantity, b.price, extra.quantity, extra.price))
  }

  function Roll(p: Position): Position {
    Position(EMPTY, Blend(p.longYesterday, p.longToday), EMPTY, Blend(p.shortYesterday, p.shortToday))
  }

  /** `closeable_quantity`. */
  function Closeable(p: Position, r: OrderRequest): int {
    var today := if r.side.Buy? then p.shortToday.quantity else p.longToday.quantity;
    var yesterday := if r.side.Buy? then p.shortYesterday.quantity else p.longYesterday.quantity;
    match r.offset
    case Open => INT_MAX
    case CloseToday => today
    case CloseYesterday => yesterday
    case Close => if ClosesYesterdayByDefault(r.exchange) then yesterday else today + yesterday
  }

  predicate CloseRequestIsValid(p: Position, r: OrderRequest) {
    r.offset.Open? || (r.volume > 0 && Closeable(p, r) >= r.volume)
  }

  /** Removing lots from a bucket keeps its price until it is empty. */
  function Remove(b: Bucket, lots: int): Bucket {
    Bucket(b.quantity - lots, if b.quantity == lots then 0.0 else b.price)
  }

  /** How many lots a close takes from each bucket of its side; `None` leaves a bucket untouched. */
  datatype Draw = Draw(yesterday: Option<int>, today: Option<int>)

  function DrawFor(yesterday: Bucket, today: Bucket, r: OrderRequest, quantity: int): Draw {
    if r.offset.CloseToday? then Draw(None, UpTo(today, quantity))
    else if r.offset.CloseYesterday? || ClosesYesterdayByDefault(r.exchange) then Draw(UpTo(yesterday, quantity), None)
    else Draw(UpTo(yesterday, quantity), Spill(yesterday, today, quantity))
  }

  /** Drawing from one bucket: up to `n` of its lots. */
  function UpTo(c: Bucket, n: int): Option<int> {
    Some(Min(c.quantity, n))
  }

  /** What a plain close takes of today's bucket once yesterday's is empty. */
  function Spill(yesterday: Bucket, today: Bucket, n: int): Option<int> {
    var rest := n - Min(yesterday.quantity, n);
    if rest > 0 then UpTo(today, rest) else None
  }

  function Taken(b: Bucket, lots: Option<int>): Bucket {
    if lots.Some? then Remove(b, lots.value) else b
  }

  /** Profit of closing lots of a long bucket (negated for a short one); a bucket without a cost realizes nothing. */
  function Gain(b: Bucket, lots: Option<int>, price: real): real {
    if lots.Some? && b.price > 0.0 then Notional(lots.value, price - b.price) else 0.0
  }

  /** Profit in account currency: `gain` is per unit of the underlying, commission is per lot. */
  function NetOfFees(gain: real, lots: int, costs: CostModel): real {
    gain * costs.multiplier - Notional(lots, costs.commission)
  }

  lemma NetOfFeesSum(x: real, y: real, a: int, b: int, costs: CostModel)
    ensures NetOfFees(x + y, a + b, costs) == NetOfFees(x, a, costs) + NetOfFees(y, b, costs)
  {
    NotionalSum(a, b, costs.commission);
    assert (x + y) * costs.multiplier == x * costs.multiplier + y * costs.multiplier;
  }

  datatype Fill = Fill(position: Position, realized: real)

  /** What a fill of `quantity` lots does to a position, and the profit it realizes net of commission. */
  function FillOf(p: Position, r: OrderRequest, price: real, quantity: int, costs: CostModel): Fill {
    if quantity <= 0 then Fill(p, 0.0)
    else
      match (r.offset.Open?, r.side)
      case (true, Buy) => Fill(p.(longToday := Blend(p.longToday, Bucket(quantity, price))), NetOfFees(0.0, quantity, costs))
      case (true, Sell) =>
        Fill(p.(shortToday := Blend(p.shortToday, Bucket(quantity, price))), NetOfFees(0.0, quantity, costs))
      case (false, Buy) =>
        var draw := DrawFor(p.shortYesterday, p.shortToday, r, quantity);
        var gain := -Gain(p.shortYesterday, draw.yesterday, price) - Gain(p.shortToday, draw.today, price);
        Fill(p.(shortYesterday := Taken(p.shortYesterday, draw.yesterday), shortToday := Taken(p.shortToday, draw.today)),
             NetOfFees(gain, quantity, costs))
      case (false, Sell) =>
        var draw := DrawFor(p.longYesterday, p.longToday, r, quantity);
        var gain := Gain(p.longYesterday, draw.yesterday, price) + Gain(p.longToday, draw.today, price);
        Fill(p.(longYesterday := Taken(p.longYesterday, draw.yesterday), longToday := Taken(p.longToday, draw.today)),
             NetOfFees(gain, quantity, costs))
  }

  /** The mutable record the runtime keeps per instrument. */
  class PositionState {
    var longTodayQuantity: int
    var longTodayPrice: real
    var longYesterdayQuantity: int
    var longYesterdayPrice: real
    var shortTodayQuantity: int
    var shortTodayPrice: real
    var shortYesterdayQuantity: int
    var shortYesterdayPrice: real

    constructor (p: Position)
      ensures Value() == p
    {
      longTodayQuantity, longTodayPrice := p.longToday.quantity, p.longToday.price;
      longYesterdayQuantity, longYesterdayPrice := p.longYesterday.quantity, p.longYesterday.price;
      shortTodayQuantity, shortTodayPrice := p.shortToday.quantity, p.shortToday.price;
      shortYesterdayQuantity, shortYesterdayPrice := p.shortYesterday.quantity, p.shortYesterday.price;
    }

    function Value(): Position
      reads this
    {
      Position(Bucket(longTodayQuantity, longTodayPrice), Bucket(longYesterdayQuantity, longYesterdayPrice),
               Bucket(shortTodayQuantity, shortTodayPrice), Bucket(shortYesterdayQuantity, shortYesterdayPrice))
    }

    /** `roll_position_to_next_trading_day`. */
    method RollToNextTradingDay()
      modifies this
      ensures Value() == Roll(old(Value()))
    {
      longYesterdayPrice :=
        WeightedAveragePrice(longYesterdayQuantity, longYesterdayPrice, longTodayQuantity, longTodayPrice);
      longYesterdayQuantity := longYesterdayQuantity + longTodayQuantity;
      longTodayQuantity, longTodayPrice := 0, 0.0;
      shortYesterdayPrice :=
        WeightedAveragePrice(shortYesterdayQuantity, shortYesterdayPrice, shortTodayQuantity, shortTodayPrice);
      shortYesterdayQuantity := shortYesterdayQuantity + shortTodayQuantity;
      shortTodayQuantity, shortTodayPrice := 0, 0.0;
    }

    method ApplyFill(r: OrderRequest, price: real, quantity: int, costs: CostModel) returns (realized: real)
      modifies this
      ensures Fill(Value(), realized) == FillOf(old(Value()), r, price, quantity, costs)
    {
      hide Notional, NetOfFees, ClosesYesterdayByDefault;
      if quantity <= 0 {
        return 0.0;
      }
      if r.offset.Open? {
        if r.side.Buy? {
          var total := longTodayQuantity + quantity;
          var grossCost := Notional(longTodayQuantity, longTodayPrice) + Notional(quantity, price);
          longTodayQuantity := total;
          longTodayPrice := if total > 0 then grossCost / total as real else 0.0;
        } else {
          var total := shortTodayQuantity + quantity;
          var grossCost := Notional(shortTodayQuantity, shortTodayPrice) + Notional(quantity, price);
          shortTodayQuantity := total;
          shortTodayPrice := if total > 0 then grossCost / total as real else 0.0;
        }
        return NetOfFees(0.0, quantity, costs);
      }
      var gross: real;
      if r.side.Buy? {
        if r.offset.CloseToday? {
          shortTodayQuantity, shortTodayPrice, gross :=
            CloseShortBucket(shortTodayQuantity, shortTodayPrice, quantity, price);
        } else if r.offset.CloseYesterday? || ClosesYesterdayByDefault(r.exchange) {
          shortYesterdayQuantity, shortYesterdayPrice, gross :=
            CloseShortBucket(shortYesterdayQuantity, shortYesterdayPrice, quantity, price);
        } else {
          var remaining := quantity;
          var carried := Min(shortYesterdayQuantity, remaining);
          shortYesterdayQuantity, shortYesterdayPrice, gross :=
            CloseShortBucket(shortYesterdayQuantity, shortYesterdayPrice, carried, price);
          remaining := remaining - carried;
          if remaining > 0 {
            var more: real;
            shortTodayQuantity, shortTodayPrice, more :=
              CloseShortBucket(shortTodayQuantity, shortTodayPrice, remaining, price);
            gross := gross + more;
          }
        }
      } else if r.offset.CloseToday? {
        longTodayQuantity, longTodayPrice, gross :=
          CloseLongBucket(longTodayQuantity, longTodayPrice, quantity, price);
      } else if r.offset.CloseYesterday? || ClosesYesterdayByDefault(r.exchange) {
        longYesterdayQuantity, longYesterdayPrice, gross :=
          CloseLongBucket(longYesterdayQuantity, longYesterdayPrice, quantity, price);
      } else {
        var remaining := quantity;
        var carried := Min(longYesterdayQuantity, remaining);
        longYesterdayQuantity, longYesterdayPrice, gross :=
          CloseLongBucket(longYesterdayQuantity, longYesterdayPrice, carried, price);
        remaining := remaining - carried;
        if remaining > 0 {
          var more: real;
          longTodayQuantity, longTodayPrice, more :=
            CloseLongBucket(longTodayQuantity, longTodayPrice, remaining, price);
          gross := gross + more;
        }
      }
      return NetOfFees(gross, quantity, costs);
    }
  }

  method CloseLongBucket(quantity: int, price: real, lots: int, tradePrice: real)
    returns (left: int, leftPrice: real, realized: real)
    ensures Bucket(left, leftPrice) == Remove(Bucket(quantity, price), Min(quantity, lots))
    ensures realized == Gain(Bucket(quantity, price), Some(Min(quantity, lots)), tradePrice)
  {
    var closing := Min(quantity, lots);
    realized := if price > 0.0 then Notional(closing, tradePrice - price) else 0.0;
    left := quantity - closing;
    leftPrice := if left == 0 then 0.0 else price;
  }

  method CloseShortBucket(quantity: int, price: real, lots: int, tradePrice: real)
    returns (left: int, leftPrice: real, realized: real)
    ensures Bucket(left, leftPrice) == Remove(Bucket(quantity, price), Min(quantity, lots))
    ensures realized == -Gain(Bucket(quantity, price), Some(Min(quantity, lots)), tradePrice)
  {
    var closing := Min(quantity, lots);
    NotionalSpread(closing, tradePrice, price);
    NotionalSpread(closing, price, tradePrice);
    hide Notional;
    realized := if price > 0.0 then Notional(closing, price - tradePrice) else 0.0;
    left := quantity - closing;
    leftPrice := if left == 0 then 0.0 else price;
  }

  // ---- Laws of fills and rolls ----

  /** The weighted average spreads the money over the lots. */
  lemma AverageSpreadsMoney(q1: int, p1: real, q2: int, p2: real)
    ensures q1 + q2 <= 0 ==> WeightedAveragePrice(q1, p1, q2, p2) == 0.0
    ensures q1 + q2 > 0 ==>
      Notional(q1 + q2, WeightedAveragePrice(q1, p1, q2, p2)) == Notional(q1, p1) + Notional(q2, p2)
    ensures q1 + q2 > 0 && Notional(q1, p1) + Notional(q2, p2) > 0.0 ==> WeightedAveragePrice(q1, p1, q2, p2) > 0.0
  {
    hide Notional;
    if q1 + q2 > 0 {
      NotionalOfAverage(q1 + q2, Notional(q1, p1) + Notional(q2, p2));
    }
  }

  /** Blending keeps total cost, so no sequence of opens or rolls creates or loses money. */
  lemma BlendKeepsCost(b: Bucket, extra: Bucket)
    requires b.Sound() && extra.Sound()
    ensures Blend(b, extra).Sound()
    ensures Blend(b, extra).Cost() == b.Cost() + extra.Cost()
    ensures b.Costed() && extra.Costed() ==> Blend(b, extra).Costed()
  {
    hide Notional, WeightedAveragePrice;
    var q1, p1, q2, p2 := b.quantity, b.price, extra.quantity, extra.price;
    AverageSpreadsMoney(q1, p1, q2, p2);
    if q1 + q2 == 0 {
      NotionalSign(0, 0.0);
    } else if b.Costed() && extra.Costed() {
      NotionalSign(q1, p1);
      NotionalSign(q2, p2);
    }
  }

  /** The day roll moves lots, not money. */
  lemma RollKeepsCost(p: Position)
    requires p.Sound()
    ensures Roll(p).Sound() && Roll(p).OpenCost() == p.OpenCost()
    ensures Roll(p).Long() == p.Long() && Roll(p).Short() == p.Short()
    ensures p.Costed() ==> Roll(p).Costed()
  {
    hide Notional, WeightedAveragePrice;
    var long, short := Blend(p.longYesterday, p.longToday), Blend(p.shortYesterday, p.shortToday);
    BlendKeepsCost(p.longYesterday, p.longToday);
    BlendKeepsCost(p.shortYesterday, p.shortToday);
    NotionalSign(0, 0.0);
    assert Roll(p) == Position(EMPTY, long, EMPTY, short);
    assert EMPTY.Cost() == 0.0;
  }

  /** The position a day later: nothing counts as opened today, and yesterday's buckets hold all lots at what they cost. */
  predicate RolledOver(p: Position, later: Position) {
    && later.longToday == EMPTY && later.shortToday == EMPTY
    && later.longYesterday.quantity == p.longToday.quantity + p.longYesterday.quantity
    && later.shortYesterday.quantity == p.shortToday.quantity + p.shortYesterday.quantity
    && (p.Sound() ==>
          && later.longYesterday.Cost() == p.longToday.Cost() + p.longYesterday.Cost()
          && later.shortYesterday.Cost() == p.shortToday.Cost() + p.shortYesterday.Cost())
  }

  lemma RollCarriesOver(p: Position)
    ensures RolledOver(p, Roll(p))
  {
    hide Notional, WeightedAveragePrice;
    if p.Sound() {
      BlendKeepsCost(p.longYesterday, p.longToday);
      BlendKeepsCost(p.shortYesterday, p.shortToday);
    }
  }

  /** A fill of that many lots is an open, or is covered by the buckets its close counts. */
  predicate Admits(p: Position, r: OrderRequest, quantity: int) {
    r.offset.Open? || quantity <= Closeable(p, r)
  }

  /** Closing is exact: an admitted close takes just its volume, from the buckets that were counted and no others. */
  lemma CloseIsExact(p: Position, r: OrderRequest, price: real, quantity: int, costs: CostModel)
    requires p.NonNegative() && !r.offset.Open? && 0 < quantity <= Closeable(p, r)
    ensures var after := FillOf(p, r, price, quantity, costs).position;
      var yesterdayOnly := r.offset.CloseYesterday? || (r.offset.Close? && ClosesYesterdayByDefault(r.exchange));
      && after.NonNegative()
      && Closeable(after, r) == Closeable(p, r) - quantity
      && (r.side.Buy? ==> after.Short() == p.Short() - quantity && after.Long() == p.Long())
      && (r.side.Buy? ==> after.longToday == p.longToday && after.longYesterday == p.longYesterday)
      && (r.side.Sell? ==> after.Long() == p.Long() - quantity && after.Short() == p.Short())
      && (r.side.Sell? ==> after.shortToday == p.shortToday && after.shortYesterday == p.shortYesterday)
      && (r.offset.CloseToday?
          ==> after.longYesterday == p.longYesterday && after.shortYesterday == p.shortYesterday)
      && (yesterdayOnly ==> after.longToday == p.longToday && after.shortToday == p.shortToday)
  {
    hide Notional, NetOfFees, WeightedAveragePrice, ClosesYesterdayByDefault;
  }

  function SignedLots(side: Side, quantity: int): int {
    if side.Buy? then quantity else -quantity
  }

  /** Cash paid (negative when received) for a fill. */
  function Paid(side: Side, quantity: int, price: real): real {
    Notional(SignedLots(side, quantity), price)
  }

  function Lots(draw: Option<int>): int {
    if draw.Some? then draw.value else 0
  }

  /** What closing lots of a bucket would book but for the guard: nothing if the bucket has a cost. */
  function UnbookedOf(b: Bucket, draw: Option<int>, price: real): real {
    if b.price > 0.0 then 0.0 else Notional(Lots(draw), price - b.price)
  }

  /** The profit that a fill fails to book because lots it closes carry no positive cost. */
  function Unbooked(p: Position, r: OrderRequest, price: real, quantity: int): real {
    if quantity <= 0 || r.offset.Open? then 0.0
    else if r.side.Buy? then
      var draw := DrawFor(p.shortYesterday, p.shortToday, r, quantity);
      -UnbookedOf(p.shortYesterday, draw.yesterday, price) - UnbookedOf(p.shortToday, draw.today, price)
    else
      var draw := DrawFor(p.longYesterday, p.longToday, r, quantity);
      UnbookedOf(p.longYesterday, draw.yesterday, price) + UnbookedOf(p.longToday, draw.today, price)
  }

  /** The cash flow of a fill: the change in open cost less the cash paid. */
  function CashFlow(p: Position, after: Position, side: Side, quantity: int, price: real): real {
    after.OpenCost() - p.OpenCost() - Paid(side, quantity, price)
  }

  /** Cash-flow identity of one fill, at any price: it realizes its cash flow, less what closing lots without a cost leaves
      unbooked, times the multiplier, less commission. */
  lemma FillCashFlow(p: Position, r: OrderRequest, price: real, quantity: int, costs: CostModel)
    requires p.Sound() && quantity > 0 && Admits(p, r, quantity)
    ensures var fill := FillOf(p, r, price, quantity, costs);
      && fill.position.Sound()
      && fill.position.Net() == p.Net() + SignedLots(r.side, quantity)
      && fill.realized
         == NetOfFees(CashFlow(p, fill.position, r.side, quantity, price) - Unbooked(p, r, price, quantity), quantity, costs)
  {
    hide Notional, NetOfFees, Blend, FillOf, ClosesYesterdayByDefault, Bucket.Sound, Bucket.Cost, Unbooked, CashFlow;
    if r.offset.Open? {
      OpenCashFlow(p, r, price, quantity, costs);
    } else {
      CloseCashFlow(p, r, price, quantity, costs);
    }
  }

  lemma OpenCashFlow(p: Position, r: OrderRequest, price: real, quantity: int, costs: CostModel)
    requires p.Sound() && quantity > 0 && r.offset.Open?
    ensures var fill := FillOf(p, r, price, quantity, costs);
      && fill.position.Sound()
      && fill.position.Net() == p.Net() + SignedLots(r.side, quantity)
      && fill.realized
         == NetOfFees(CashFlow(p, fill.position, r.side, quantity, price) - Unbooked(p, r, price, quantity), quantity, costs)
      && (p.Costed() && price > 0.0 ==> fill.position.Costed())
  {
    hide Notional, NetOfFees, WeightedAveragePrice;
    NotionalDifference(0, quantity, price);
    NotionalSign(0, price);
    BlendKeepsCost(if r.side.Buy? then p.longToday else p.shortToday, Bucket(quantity, price));
  }

  lemma CloseCashFlow(p: Position, r: OrderRequest, price: real, quantity: int, costs: CostModel)
    requires p.Sound() && !r.offset.Open? && 0 < quantity <= Closeable(p, r)
    ensures var fill := FillOf(p, r, price, quantity, costs);
      && fill.position.Sound()
      && fill.position.Net() == p.Net() + SignedLots(r.side, quantity)
      && fill.realized
         == NetOfFees(CashFlow(p, fill.position, r.side, quantity, price) - Unbooked(p, r, price, quantity), quantity, costs)
      && (p.Costed() ==> fill.position.Costed())
  {
    hide Notional, NetOfFees, Blend, Gain, Taken, UnbookedOf, ClosesYesterdayByDefault;
    NotionalDifference(0, quantity, price);
    NotionalSign(0, price);
    var today := if r.side.Buy? then p.shortToday else p.longToday;
    var yesterday := if r.side.Buy? then p.shortYesterday else p.longYesterday;
    var draw := DrawFor(yesterday, today, r, quantity);
    DrawCashFlow(today, draw.today, price);
    DrawCashFlow(yesterday, draw.yesterday, price);
    NotionalSum(Lots(draw.yesterday), Lots(draw.today), price);
  }

  /** The lots a fill really moves: all of an open, and of a close as many as there are to close. */
  function LotsMoved(p: Position, r: OrderRequest, quantity: int): int {
    if r.offset.Open? then quantity else Min(Closeable(p, r), quantity)
  }

  /** The identity for any fill, covered or not: cash changes hands for the lots that are there. */
  lemma AnyFillCashFlow(p: Position, r: OrderRequest, price: real, quantity: int, costs: CostModel)
    requires p.Sound() && quantity > 0
    ensures var fill := FillOf(p, r, price, quantity, costs);
      && fill.position.Sound()
      && fill.realized
         == NetOfFees(CashFlow(p, fill.position, r.side, LotsMoved(p, r, quantity), price) - Unbooked(p, r, price, quantity),
                      quantity, costs)
  {
    hide Notional, NetOfFees, Blend, Gain, Taken, UnbookedOf, ClosesYesterdayByDefault;
    if r.offset.Open? {
      OpenCashFlow(p, r, price, quantity, costs);
    } else {
      var today := if r.side.Buy? then p.shortToday else p.longToday;
      var yesterday := if r.side.Buy? then p.shortYesterday else p.longYesterday;
      var draw := DrawFor(yesterday, today, r, quantity);
      NotionalDifference(0, LotsMoved(p, r, quantity), price);
      NotionalSign(0, price);
      DrawCashFlow(today, draw.today, price);
      DrawCashFlow(yesterday, draw.yesterday, price);
      NotionalSum(Lots(draw.yesterday), Lots(draw.today), price);
    }
  }

  lemma DrawCashFlow(b: Bucket, draw: Option<int>, price: real)
    requires b.Sound() && 0 <= Lots(draw) <= b.quantity
    ensures Taken(b, draw).Sound() && Taken(b, draw).quantity == b.quantity - Lots(draw)
    ensures b.Costed() ==> Taken(b, draw).Costed()
    ensures Gain(b, draw, price) + UnbookedOf(b, draw, price)
         == Notional(Lots(draw), price) + Taken(b, draw).Cost() - b.Cost()
  {
    hide Notional;
    var k := Lots(draw);
    NotionalSpread(k, price, b.price);
    NotionalDifference(b.quantity, k, b.price);
    NotionalSign(0, price);
    NotionalSign(0, b.price);
    NotionalSign(0, 0.0);
    NotionalSign(0, price - b.price);
  }

  /** So a fill books its whole cash flow exactly when it leaves nothing unbooked. */
  lemma WholeCashFlowIsBooked(p: Position, r: OrderRequest, price: real, quantity: int, costs: CostModel)
    requires p.Sound() && quantity > 0 && Admits(p, r, quantity) && costs.multiplier > 0.0
    ensures var fill := FillOf(p, r, price, quantity, costs);
      fill.realized == NetOfFees(CashFlow(p, fill.position, r.side, quantity, price), quantity, costs)
      <==> Unbooked(p, r, price, quantity) == 0.0
  {
    hide FillOf, CashFlow, Unbooked, Notional;
    FillCashFlow(p, r, price, quantity, costs);
    var flow := CashFlow(p, FillOf(p, r, price, quantity, costs).position, r.side, quantity, price);
    NetOfFeesDetermines(flow - Unbooked(p, r, price, quantity), flow, quantity, costs);
  }

  lemma NetOfFeesDetermines(x: real, y: real, lots: int, costs: CostModel)
    requires costs.multiplier > 0.0
    ensures NetOfFees(x, lots, costs) == NetOfFees(y, lots, costs) <==> x == y
  {
    hide Notional;
    assert (x - y) * costs.multiplier == x * costs.multiplier - y * costs.multiplier;
  }

  /** Lots that all carry a cost leave nothing unbooked, and stay so unless lots are opened at no positive price. */
  lemma CostedBooksEverything(p: Position, r: OrderRequest, price: real, quantity: int, costs: CostModel)
    requires p.Sound() && p.Costed() && quantity > 0 && Admits(p, r, quantity)
    ensures Unbooked(p, r, price, quantity) == 0.0
    ensures (r.offset.Open? ==> price > 0.0) ==> FillOf(p, r, price, quantity, costs).position.Costed()
  {
    hide Notional, NetOfFees, WeightedAveragePrice, ClosesYesterdayByDefault, FillOf, DrawFor;
    var today := if r.side.Buy? then p.shortToday else p.longToday;
    var yesterday := if r.side.Buy? then p.shortYesterday else p.longYesterday;
    if r.offset.Open? {
      OpenCashFlow(p, r, price, quantity, costs);
    } else {
      CloseCashFlow(p, r, price, quantity, costs);
      DrawsWithin(yesterday, today, r, quantity);
      NotionalSign(0, price);
    }
  }

  /** A draw takes lots only from a bucket that has them. */
  lemma DrawsWithin(yesterday: Bucket, today: Bucket, r: OrderRequest, quantity: int)
    requires yesterday.quantity >= 0 && today.quantity >= 0 && quantity > 0
    ensures var draw := DrawFor(yesterday, today, r, quantity);
      0 <= Lots(draw.yesterday) <= yesterday.quantity && 0 <= Lots(draw.today) <= today.quantity
  {
    hide ClosesYesterdayByDefault;
  }

  /** Splitting a fill into two at the same price changes nothing. */
  lemma SplitFill(p: Position, r: OrderRequest, price: real, a: int, b: int, costs: CostModel)
    requires p.Sound() && a > 0 && b > 0 && Admits(p, r, a + b)
    ensures var first := FillOf(p, r, price, a, costs);
      var second := FillOf(first.position, r, price, b, costs);
      FillOf(p, r, price, a + b, costs) == Fill(second.position, first.realized + second.realized)
  {
    hide Notional, NetOfFees, WeightedAveragePrice, ClosesYesterdayByDefault, FillOf, Unbooked, Admits;
    var first := FillOf(p, r, price, a, costs);
    SplitPosition(p, r, price, a, b, costs);
    SplitUnbooked(p, r, price, a, b, costs);
    FillCashFlow(p, r, price, a, costs);
    FillCashFlow(first.position, r, price, b, costs);
    FillCashFlow(p, r, price, a + b, costs);
    NotionalSum(SignedLots(r.side, a), SignedLots(r.side, b), price);
    var second := FillOf(first.position, r, price, b, costs).position;
    NetOfFeesSum(CashFlow(p, first.position, r.side, a, price) - Unbooked(p, r, price, a),
                 CashFlow(first.position, second, r.side, b, price) - Unbooked(first.position, r, price, b), a, b, costs);
  }

  lemma SplitPosition(p: Position, r: OrderRequest, price: real, a: int, b: int, costs: CostModel)
    requires p.Sound() && a > 0 && b > 0 && Admits(p, r, a + b)
    ensures Admits(p, r, a)
    ensures FillOf(FillOf(p, r, price, a, costs).position, r, price, b, costs).position
         == FillOf(p, r, price, a + b, costs).position
    ensures Admits(FillOf(p, r, price, a, costs).position, r, b)
  {
    hide Notional, NetOfFees, Blend, Gain, ClosesYesterdayByDefault, Taken, DrawFor;
    if r.offset.Open? {
      SplitBlend(if r.side.Buy? then p.longToday else p.shortToday, a, b, price);
    } else {
      CloseIsExact(p, r, price, a, costs);
      SplitDraw(if r.side.Buy? then p.shortYesterday else p.longYesterday,
                if r.side.Buy? then p.shortToday else p.longToday, r, price, a, b);
    }
  }

  lemma SplitUnbooked(p: Position, r: OrderRequest, price: real, a: int, b: int, costs: CostModel)
    requires p.Sound() && a > 0 && b > 0 && Admits(p, r, a + b)
    ensures Unbooked(p, r, price, a) + Unbooked(FillOf(p, r, price, a, costs).position, r, price, b)
         == Unbooked(p, r, price, a + b)
  {
    hide Notional, NetOfFees, Blend, Gain, ClosesYesterdayByDefault, Taken, DrawFor, UnbookedOf;
    if !r.offset.Open? {
      SplitDraw(if r.side.Buy? then p.shortYesterday else p.longYesterday,
                if r.side.Buy? then p.shortToday else p.longToday, r, price, a, b);
    }
  }

  /** Two closes draw from a bucket pair what one close of both volumes draws. */
  lemma SplitDraw(yesterday: Bucket, today: Bucket, r: OrderRequest, price: real, a: int, b: int)
    requires yesterday.Sound() && today.Sound() && a > 0 && b > 0
    ensures var first := DrawFor(yesterday, today, r, a);
      var y, t := Taken(yesterday, first.yesterday), Taken(today, first.today);
      var second := DrawFor(y, t, r, b);
      var whole := DrawFor(yesterday, today, r, a + b);
      && Taken(y, second.yesterday) == Taken(yesterday, whole.yesterday)
      && Taken(t, second.today) == Taken(today, whole.today)
      && UnbookedOf(yesterday, first.yesterday, price) + UnbookedOf(y, second.yesterday, price)
         == UnbookedOf(yesterday, whole.yesterday, price)
      && UnbookedOf(today, first.today, price) + UnbookedOf(t, second.today, price) == UnbookedOf(today, whole.today, price)
  {
    hide ClosesYesterdayByDefault, UpTo, UnbookedOf, Taken, Remove, Min;
    NothingDrawn(yesterday, price);
    NothingDrawn(today, price);
    if r.offset.CloseToday? {
      SplitUpTo(today, price, a, b);
    } else if r.offset.CloseYesterday? || ClosesYesterdayByDefault(r.exchange) {
      SplitUpTo(yesterday, price, a, b);
    } else {
      SplitBoth(yesterday, today, price, a, b);
    }
  }

  lemma NothingDrawn(c: Bucket, price: real)
    ensures UnbookedOf(c, None, price) == 0.0 && UnbookedOf(c, Some(0), price) == 0.0 && Taken(c, None) == c
    ensures c.Sound() ==> Taken(c, Some(0)) == c
  {
  }

  /** Taking up to `a` and then up to `b` lots from a bucket is taking up to `a + b`. */
  lemma SplitUpTo(c: Bucket, price: real, a: int, b: int)
    requires c.Sound() && a > 0 && b > 0
    ensures var left := Taken(c, UpTo(c, a));
      && left.Sound() && left.quantity == c.quantity - Min(c.quantity, a)
      && Taken(left, UpTo(left, b)) == Taken(c, UpTo(c, a + b))
      && UnbookedOf(c, UpTo(c, a), price) + UnbookedOf(left, UpTo(left, b), price) == UnbookedOf(c, UpTo(c, a + b), price)
  {
    hide Notional;
    var left := Taken(c, UpTo(c, a));
    NotionalSum(Min(c.quantity, a), Min(left.quantity, b), price - c.price);
    NotionalSign(0, price - c.price);
    NotionalSign(0, price - left.price);
  }

  /** A plain close empties yesterday's bucket before it takes today's. */
  lemma SplitBoth(yesterday: Bucket, today: Bucket, price: real, a: int, b: int)
    requires yesterday.Sound() && today.Sound() && a > 0 && b > 0
    ensures var y := Taken(yesterday, UpTo(yesterday, a));
      var t := Taken(today, Spill(yesterday, today, a));
      && Taken(y, UpTo(y, b)) == Taken(yesterday, UpTo(yesterday, a + b))
      && Taken(t, Spill(y, t, b)) == Taken(today, Spill(yesterday, today, a + b))
      && UnbookedOf(yesterday, UpTo(yesterday, a), price) + UnbookedOf(y, UpTo(y, b), price)
         == UnbookedOf(yesterday, UpTo(yesterday, a + b), price)
      && UnbookedOf(today, Spill(yesterday, today, a), price) + UnbookedOf(t, Spill(y, t, b), price)
         == UnbookedOf(today, Spill(yesterday, today, a + b), price)
  {
    hide UnbookedOf, Taken;
    SplitUpTo(yesterday, price, a, b);
    NothingDrawn(today, price);
    if yesterday.quantity < a {
      SplitUpTo(today, price, a - yesterday.quantity, b);
    }
  }

  lemma SplitBlend(c: Bucket, a: int, b: int, price: real)
    requires c.Sound() && a > 0 && b > 0
    ensures Blend(Blend(c, Bucket(a, price)), Bucket(b, price)) == Blend(c, Bucket(a + b, price))
  {
    hide Notional;
    BlendKeepsCost(c, Bucket(a, price));
    NotionalSum(a, b, price);
  }

  /** The failing family: lots opened at price zero leave all that closing them should earn unbooked, so that the identity
      fails for every other closing price. */
  lemma ZeroCostRealizesNothing(r: OrderRequest, close: OrderRequest, lots: int, price: real)
    requires r.offset.Open? && !close.offset.Open? && close.side != r.side && lots > 0
    requires close.offset.CloseToday? || (close.offset.Close? && !ClosesYesterdayByDefault(close.exchange))
    ensures var held := FillOf(FLAT, r, 0.0, lots, DEFAULT_COSTS).position;
      && FillOf(held, close, price, lots, DEFAULT_COSTS) == Fill(FLAT, 0.0)
      && Unbooked(held, close, price, lots) == Notional(SignedLots(r.side, lots), price)
      && (Unbooked(held, close, price, lots) == 0.0 <==> price == 0.0)
  {
    hide ClosesYesterdayByDefault;
  }

  // ---- All positions of an account or a strategy ----

  ghost function Costs(positions: map<string, Position>): map<string, real> {
    map i | i in positions :: positions[i].OpenCost()
  }

  /** What the open lots of all instruments cost, shorts counted negative. */
  ghost function OpenCosts(positions: map<string, Position>): real {
    TotalReal(Costs(positions))
  }

  lemma CostsUpdate(positions: map<string, Position>, i: string, p: Position)
    ensures OpenCosts(positions[i := p])
         == OpenCosts(positions) + p.OpenCost() - (if i in positions then positions[i].OpenCost() else 0.0)
  {
    hide Position.OpenCost;
    assert Costs(positions[i := p]) == Costs(positions)[i := p.OpenCost()];
    TotalRealUpdate(Costs(positions), i, p.OpenCost());
  }

  lemma FlatIsFree()
    ensures FLAT.OpenCost() == 0.0 && FLAT.Sound() && FLAT.Costed() && FLAT.NonNegative() && FLAT.Net() == 0
  {
    NotionalSign(0, 0.0);
  }
}
