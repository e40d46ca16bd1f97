/** The slot in which a strategy tracks its working order. */
module OrderSlot {
  import opened Numeric
  import opened Domain

  datatype Slot = Slot(
    clientOrderId: Option<string>, brokerOrderId: Option<string>,
    signalBarIndex: Option<int>, direction: Option<int>, filledVolume: int)

  const EMPTY_SLOT := Slot(None, None, None, None, 0)

  /** `matches_order_update`. */
  predicate Matches(slot: Slot, order: OrderSnapshot) {
    || slot.clientOrderId == Some(order.clientOrderId)
    || slot.brokerOrderId == Some(order.orderId)
  }

  /** `filled_volume_delta`. */
  function FilledVolumeDelta(slot: Slot, order: OrderSnapshot): int {
    Max(0, order.filledVolume - slot.filledVolume)
  }

  /** `record_order_update`. */
  function Recorded(slot: Slot, order: OrderSnapshot): Slot {
    slot.(brokerOrderId := if order.orderId != "" then Some(order.orderId) else slot.brokerOrderId,
          filledVolume := if order.filledPrice > 0.0 then Max(slot.filledVolume, order.filledVolume)
                          else slot.filledVolume)
  }

  class OrderSlotState {
    var clientOrderId: Option<string>
    var brokerOrderId: Option<string>
    var signalBarIndex: Option<int>
    var direction: Option<int>
    var filledVolume: int

    constructor ()
      ensures Value() == EMPTY_SLOT
    {
      clientOrderId, brokerOrderId, signalBarIndex, direction, filledVolume := None, None, None, None, 0;
    }

    function Value(): Slot
      reads this
    {
      Slot(clientOrderId, brokerOrderId, signalBarIndex, direction, filledVolume)
    }

    method RecordOrderUpdate(order: OrderSnapshot)
      modifies this
      ensures Value() == Recorded(old(Value()), order)
    {
      if order.orderId != "" {
        brokerOrderId := Some(order.orderId);
      }
      if order.filledPrice > 0.0 {
        filledVolume := Max(filledVolume, order.filledVolume);
      }
    }

    method MarkOrderSubmitted(client: string, barIndex: int, side: Option<int>)
      modifies this
      ensures Value() == Slot(Some(client), None, Some(barIndex), side, 0)
    {
      clientOrderId, brokerOrderId := Some(client), None;
      signalBarIndex, direction, filledVolume := Some(barIndex), side, 0;
    }

    method ClearOrderSlot()
      modifies this
      ensures Value() == EMPTY_SLOT
    {
      clientOrderId, brokerOrderId, signalBarIndex, direction, filledVolume := None, None, None, None, 0;
    }

    /** `cancelSucceeds` is what cancelling the order would answer; a slot without an order asks for nothing. */
    method CancelOrderSlot(cancelSucceeds: bool) returns (success: bool, asked: Option<string>)
      modifies this
      ensures asked == old(clientOrderId) && Value() == EMPTY_SLOT
      ensures success == (old(clientOrderId).None? || cancelSucceeds)
    {
      success, asked := true, None;
      if clientOrderId.Some? {
        asked := clientOrderId;
        success := cancelSucceeds;
      }
      ClearOrderSlot();
    }
  }

  // ---- What a slot sees of a stream of updates ----

  /** The strategy's reaction to an update: the increment of a matching one, which is then recorded. */
  datatype Sight = Sight(slot: Slot, delta: int)

  function See(slot: Slot, order: OrderSnapshot): Sight {
    if Matches(slot, order) then Sight(Recorded(slot, order), FilledVolumeDelta(slot, order)) else Sight(slot, 0)
  }

  /** The increments a slot sees, in order, leaving out the empty ones. */
  function Increments(slot: Slot, orders: seq<OrderSnapshot>): seq<int>
    decreases |orders|
  {
    if orders == [] then []
    else
      var seen := See(slot, orders[0]);
      (if seen.delta > 0 then [seen.delta] else []) + Increments(seen.slot, orders[1..])
  }

  function Sum(volumes: seq<int>): int {
    if volumes == [] then 0 else volumes[0] + Sum(volumes[1..])
  }

  /** An update that carries the client's or the broker's id. */
  predicate Carries(order: OrderSnapshot, client: string, broker: string) {
    order.clientOrderId == client || order.orderId == broker
  }

  /** The largest filled volume among the updates that carry one of the ids. */
  function LargestReported(orders: seq<OrderSnapshot>, client: string, broker: string): int {
    if orders == [] then 0
    else if Carries(orders[0], client, broker)
    then Max(orders[0].filledVolume, LargestReported(orders[1..], client, broker))
    else LargestReported(orders[1..], client, broker)
  }

  /** The slot knows the broker's id, or every update under it carries the client's id too. */
  predicate Known(slot: Slot, orders: seq<OrderSnapshot>, client: string, broker: string) {
    || slot.brokerOrderId == Some(broker)
    || (slot.brokerOrderId.None? && forall o :: o in orders && o.orderId == broker ==> o.clientOrderId == client)
  }

  /** However the updates of its order are repeated or reordered, whether they carry the client's id, the broker's or both,
      the increments a slot sees add up to the largest volume reported, and updates of other orders add nothing. */
  lemma {:induction false} IncrementsReachTheLargest(slot: Slot, orders: seq<OrderSnapshot>, client: string, broker: string)
    requires slot.clientOrderId == Some(client) && slot.filledVolume >= 0 && broker != ""
    requires Known(slot, orders, client, broker)
    requires forall o :: o in orders ==> o.filledPrice > 0.0 || o.filledVolume <= 0
    requires forall o :: o in orders && o.clientOrderId == client ==> o.orderId in {"", broker}
    ensures Sum(Increments(slot, orders))
         == Max(slot.filledVolume, LargestReported(orders, client, broker)) - slot.filledVolume
    decreases |orders|
  {
    hide Matches, Carries, Recorded, FilledVolumeDelta;
    if orders != [] {
      var seen := See(slot, orders[0]);
      assert orders[0] in orders;
      forall o | o in orders[1..] ensures o in orders {
      }
      OneUpdate(slot, orders, client, broker);
      IncrementsReachTheLargest(seen.slot, orders[1..], client, broker);
      var rest := Increments(seen.slot, orders[1..]);
      assert seen.delta > 0 ==> ([seen.delta] + rest)[1..] == rest;
      assert [] + rest == rest;
    }
  }

  lemma OneUpdate(slot: Slot, orders: seq<OrderSnapshot>, client: string, broker: string)
    requires orders != [] && slot.clientOrderId == Some(client) && slot.filledVolume >= 0 && broker != ""
    requires Known(slot, orders, client, broker)
    requires orders[0].filledPrice > 0.0 || orders[0].filledVolume <= 0
    requires orders[0].clientOrderId == client ==> orders[0].orderId in {"", broker}
    ensures var seen, now := See(slot, orders[0]), if Carries(orders[0], client, broker) then orders[0].filledVolume else 0;
      && seen.delta == Max(0, now - slot.filledVolume) && seen.slot.filledVolume == Max(slot.filledVolume, now)
      && seen.slot.clientOrderId == Some(client) && Known(seen.slot, orders[1..], client, broker)
  {
    assert orders[0] in orders;
    assert forall o :: o in orders[1..] ==> o in orders;
  }
}
