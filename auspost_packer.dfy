/**
 * `CommerceAusPostPacker`: Commerce's packer step for this shipping
 * method. Every shippable order item goes, in order, into one shipment
 * titled "Primary Shipment"; an order with nothing shippable proposes no
 * shipment at all.
 */
module AusPostPacker {
  import opened Wrappers
  import opened Units
  import opened Commerce

  datatype ShipmentItem = ShipmentItem(
    orderItemId: int,
    title: string,
    quantity: real,
    weight: Weight,
    declaredValue: Price)

  /** `ProposedShipment`; the shipment type comes from Commerce's default packer. */
  datatype ProposedShipment = ProposedShipment(
    shipmentType: string,
    orderId: int,
    title: string,
    items: seq<ShipmentItem>,
    shippingProfile: Option<PostalAddress>)

  const PrimaryShipmentTitle: string := "Primary Shipment"

  /** An item is shipped only if it has a purchased entity with a weight field. */
  predicate Shippable(item: OrderItem)
  {
    item.purchasedEntity.Some? && item.purchasedEntity.value.hasWeightField
  }

  /** `getWeight()`: the product's weight, or 0 kg when the weight field is empty. */
  function UnitWeight(item: OrderItem): (w: Weight)
    requires Shippable(item)
    ensures item.purchasedEntity.value.weight.None? ==> w == Weight(0.0, Kilogram) && InGrams(w) == 0.0
    ensures item.purchasedEntity.value.weight.Some? ==> w == item.purchasedEntity.value.weight.value
  {
    match item.purchasedEntity.value.weight
    case None => Weight(0.0, Kilogram)
    case Some(w) => w
  }

  /** The shipment item for one order item: its quantity, and weight and value times that quantity. */
  function ShipmentItemOf(item: OrderItem): (s: ShipmentItem)
    requires Shippable(item)
    ensures s.orderItemId == item.id && s.title == item.title && s.quantity == item.quantity
    ensures InGrams(s.weight) == InGrams(UnitWeight(item)) * item.quantity
    ensures s.declaredValue == Price(item.unitPrice.number * item.quantity, item.unitPrice.currencyCode)
  {
    ShipmentItem(item.id, item.title, item.quantity, ScaleWeight(UnitWeight(item), item.quantity),
                 Price(item.unitPrice.number * item.quantity, item.unitPrice.currencyCode))
  }

  /** The items of the primary shipment after the loop has seen `items`. */
  function ShipmentItems(items: seq<OrderItem>): (r: seq<ShipmentItem>)
    ensures |r| <= |items|
    decreases |items|
  {
    if items == [] then []
    else
      var last := items[|items| - 1];
      ShipmentItems(items[..|items| - 1]) + (if Shippable(last) then [ShipmentItemOf(last)] else [])
  }

  /** `s` is the shipment item of some shippable order item of `items`. */
  predicate FromShippable(items: seq<OrderItem>, s: ShipmentItem)
  {
    exists j :: 0 <= j < |items| && Shippable(items[j]) && s == ShipmentItemOf(items[j])
  }

  /**
   * Every shipment item comes from a shippable order item, every shippable
   * order item yields one, and only unshippable items are dropped.
   */
  lemma ShipmentItemsFromOrder(items: seq<OrderItem>)
    ensures forall s :: s in ShipmentItems(items) ==> FromShippable(items, s)
    ensures forall j :: 0 <= j < |items| && Shippable(items[j]) ==> ShipmentItemOf(items[j]) in ShipmentItems(items)
    ensures |ShipmentItems(items)| == |items| <==> forall j :: 0 <= j < |items| ==> Shippable(items[j])
  {
    ShipmentItemsSound(items);
    ShipmentItemsComplete(items);
    ShipmentItemsCount(items);
  }

  /** Every shipment item comes from a shippable order item. */
  lemma {:induction false} ShipmentItemsSound(items: seq<OrderItem>)
    ensures forall s :: s in ShipmentItems(items) ==> FromShippable(items, s)
    decreases |items|
  {
    if items != [] {
      var init := items[..|items| - 1];
      var last := items[|items| - 1];
      ShipmentItemsSound(init);
      forall s | s in ShipmentItems(items) ensures FromShippable(items, s) {
        if s in ShipmentItems(init) {
          var j :| 0 <= j < |init| && Shippable(init[j]) && s == ShipmentItemOf(init[j]);
          assert items[j] == init[j];
        } else {
          assert Shippable(last) && s == ShipmentItemOf(items[|items| - 1]);
        }
      }
    }
  }

  /** Every shippable order item yields its shipment item. */
  lemma {:induction false} ShipmentItemsComplete(items: seq<OrderItem>)
    ensures forall j :: 0 <= j < |items| && Shippable(items[j]) ==> ShipmentItemOf(items[j]) in ShipmentItems(items)
    decreases |items|
  {
    if items != [] {
      var init := items[..|items| - 1];
      ShipmentItemsComplete(init);
      forall j | 0 <= j < |items| && Shippable(items[j]) ensures ShipmentItemOf(items[j]) in ShipmentItems(items) {
        if j < |init| { assert items[j] == init[j]; }
      }
    }
  }

  /** No order item is dropped exactly when all of them are shippable. */
  lemma {:induction false} ShipmentItemsCount(items: seq<OrderItem>)
    ensures |ShipmentItems(items)| == |items| <==> forall j :: 0 <= j < |items| ==> Shippable(items[j])
    decreases |items|
  {
    if items != [] {
      var init := items[..|items| - 1];
      var last := items[|items| - 1];
      ShipmentItemsCount(init);
      if |ShipmentItems(items)| == |items| {
        assert |ShipmentItems(init)| == |init| && Shippable(last);
        forall j | 0 <= j < |items| ensures Shippable(items[j]) {
          if j < |init| { assert items[j] == init[j]; }
        }
      }
      if forall j :: 0 <= j < |items| ==> Shippable(items[j]) {
        assert forall j :: 0 <= j < |init| ==> init[j] == items[j];
      }
    }
  }

  /** The primary shipment is empty exactly when no order item is shippable. */
  lemma {:induction false} NothingShippable(items: seq<OrderItem>)
    ensures ShipmentItems(items) == [] <==> forall j :: 0 <= j < |items| ==> !Shippable(items[j])
  {
    ShipmentItemsFromOrder(items);
    if ShipmentItems(items) != [] {
      assert FromShippable(items, ShipmentItems(items)[0]);
    }
  }

  /** `pack()`: the primary shipment, proposed only when it has items. */
  method Pack(order: Order, profile: Option<PostalAddress>, shipmentType: string)
    returns (proposed: seq<ProposedShipment>)
    ensures ShipmentItems(order.items) == [] ==> proposed == []
    ensures ShipmentItems(order.items) != [] ==>
      proposed == [ProposedShipment(shipmentType, order.id, PrimaryShipmentTitle, ShipmentItems(order.items), profile)]
  {
    var items: seq<ShipmentItem> := [];
    for i := 0 to |order.items|
      invariant items == ShipmentItems(order.items[..i])
    {
      var orderItem := order.items[i];
      assert order.items[..i + 1][..i] == order.items[..i];
      if !Shippable(orderItem) {
        continue;
      }
      items := items + [ShipmentItemOf(orderItem)];
    }
    assert order.items[..|order.items|] == order.items;
    var shipments := [(PrimaryShipmentTitle, items)];
    proposed := [];
    for i := 0 to |shipments|
      invariant proposed == if i == 0 || items == [] then [] else [ProposedShipment(shipmentType, order.id, PrimaryShipmentTitle, items, profile)]
    {
      if shipments[i].1 != [] {
        proposed := proposed + [ProposedShipment(shipmentType, order.id, shipments[i].0, shipments[i].1, profile)];
      }
    }
  }
}
