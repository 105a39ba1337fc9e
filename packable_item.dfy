/**
 * `PackableCommerceOrderItem`: an order item as the box packer sees it,
 * with every edge and the weight rounded up to whole millimetres and
 * grams, the only units the packer accepts.
 */
module PackableItems {
  import opened Wrappers
  import opened OrderedMaps
  import opened PhpValues
  import opened Units
  import opened Commerce

  datatype PackableItem = PackableItem(orderItem: OrderItem)

  /** `getDescription()`. */
  function Description(p: PackableItem): string
  {
    p.orderItem.title
  }

  /** `getKeepFlat()`: no order item is ever kept flat. */
  const KeepFlat: bool := false

  /** Reading a field of an order item that has no purchased entity. */
  const NoPurchasedEntity: Failure := Fatal("Call to a member function get() on null")

  /** Reading the dimensions of a product whose bundle has no such field. */
  const UnknownDimensionsField: Failure := InvalidArgument("Field dimensions is unknown.")

  /** The order item's product has a dimensions field. */
  predicate HasDimensionsField(p: PackableItem)
  {
    p.orderItem.purchasedEntity.Some? && p.orderItem.purchasedEntity.value.hasDimensionsField
  }

  /**
   * `getDimension($name, MILLIMETER, FALSE)`: the dimension in millimetres
   * before rounding, 0 when the product's dimensions field is empty; a
   * product without the field fails as the entity's `get()` does, and a
   * non-numeric value or unknown unit as the length constructor does.
   */
  function DimensionMillimetres(p: PackableItem, name: string): (r: Result<real>)
    ensures p.orderItem.purchasedEntity.None? ==> r == Err(NoPurchasedEntity)
    ensures p.orderItem.purchasedEntity.Some? && !HasDimensionsField(p) ==> r == Err(UnknownDimensionsField)
    ensures HasDimensionsField(p) && p.orderItem.purchasedEntity.value.dimensions.None? ==> r == Ok(0.0)
    ensures r.Err? && p.orderItem.purchasedEntity.Some? ==> r.error.InvalidArgument?
  {
    match p.orderItem.purchasedEntity
    case None => Err(NoPurchasedEntity)
    case Some(entity) =>
      if !entity.hasDimensionsField then Err(UnknownDimensionsField)
      else match entity.dimensions
      case None => Ok(0.0)
      case Some(dims) =>
        var length :- MakeLength(Field(Arr(dims), name), Field(Arr(dims), "unit"));
        Ok(InMillimetres(length))
  }

  /** `getDimension($name, MILLIMETER)`: the same dimension rounded up to whole millimetres. */
  function Dimension(p: PackableItem, name: string): (r: Result<int>)
    ensures r.Ok? <==> DimensionMillimetres(p, name).Ok?
    ensures r.Ok? ==> DimensionMillimetres(p, name).value <= r.value as real < DimensionMillimetres(p, name).value + 1.0
    ensures r.Err? ==> r.error == DimensionMillimetres(p, name).error
  {
    var mm :- DimensionMillimetres(p, name);
    Ok(Ceil(mm))
  }

  /** `getWidth()`. */
  function Width(p: PackableItem): Result<int> { Dimension(p, "width") }

  /** `getLength()`. */
  function Length(p: PackableItem): Result<int> { Dimension(p, "length") }

  /** `getDepth()`: depth is the product's height. */
  function Depth(p: PackableItem): Result<int> { Dimension(p, "height") }

  /**
   * `getWeight()`: the weight rounded up to whole grams, 0 when the weight
   * field is empty.
   */
  function WeightGrams(p: PackableItem): (r: Result<int>)
    ensures r.Ok? <==> p.orderItem.purchasedEntity.Some? && p.orderItem.purchasedEntity.value.hasWeightField
    ensures r.Ok? && p.orderItem.purchasedEntity.value.weight.None? ==> r.value == 0
    ensures r.Ok? && p.orderItem.purchasedEntity.value.weight.Some? ==>
      var g := InGrams(p.orderItem.purchasedEntity.value.weight.value);
      g <= r.value as real < g + 1.0
  {
    match p.orderItem.purchasedEntity
    case None => Err(NoPurchasedEntity)
    case Some(entity) =>
      if !entity.hasWeightField then Err(InvalidArgument("Field weight is unknown."))
      else match entity.weight
        case None => Ok(0)
        case Some(w) => Ok(Ceil(InGrams(w)))
  }

  /**
   * `getVolume()`: the unrounded millimetre edges multiplied with bcmath at
   * scale 0, which truncates each product.
   */
  function Volume(p: PackableItem): (r: Result<int>)
    ensures r.Ok? <==> (DimensionMillimetres(p, "width").Ok? && DimensionMillimetres(p, "length").Ok?
                        && DimensionMillimetres(p, "height").Ok?)
    ensures r.Ok? ==> HasDimensionsField(p)
    ensures p.orderItem.purchasedEntity.None? ==> r == Err(NoPurchasedEntity)
    ensures p.orderItem.purchasedEntity.Some? && !HasDimensionsField(p) ==> r == Err(UnknownDimensionsField)
  {
    var w :- DimensionMillimetres(p, "width");
    var l :- DimensionMillimetres(p, "length");
    var h :- DimensionMillimetres(p, "height");
    Ok(BcVolume(w, l, h))
  }

  /** A product with an empty dimensions field packs as a point: every edge and the volume are 0. */
  lemma NoDimensionsNoSize(p: PackableItem)
    requires HasDimensionsField(p) && p.orderItem.purchasedEntity.value.dimensions.None?
    ensures Width(p) == Length(p) == Depth(p) == Ok(0)
    ensures Volume(p) == Ok(0)
  {
  }

  /**
   * A product whose bundle has no dimensions field cannot be packed: every
   * edge and the volume fail with the same InvalidArgumentException.
   */
  lemma NoDimensionsFieldNoSize(p: PackableItem)
    requires p.orderItem.purchasedEntity.Some? && !HasDimensionsField(p)
    ensures Width(p) == Length(p) == Depth(p) == Err(UnknownDimensionsField)
    ensures Volume(p) == Err(UnknownDimensionsField)
  {
  }

  /**
   * For a product with non-negative dimensions the volume is never more
   * than the product of the rounded-up edges the packer uses.
   */
  lemma VolumeWithinEdges(p: PackableItem)
    requires Volume(p).Ok?
    requires DimensionMillimetres(p, "width").value >= 0.0 && DimensionMillimetres(p, "length").value >= 0.0
    requires DimensionMillimetres(p, "height").value >= 0.0
    ensures 0 <= Volume(p).value <= Width(p).value * Length(p).value * Depth(p).value
  {
    var w, l, h := DimensionMillimetres(p, "width").value, DimensionMillimetres(p, "length").value,
                   DimensionMillimetres(p, "height").value;
    assert Volume(p).value == BcVolume(w, l, h);
    assert Width(p).value == Ceil(w) && Length(p).value == Ceil(l) && Depth(p).value == Ceil(h);
    TruncatedProductBound(w, l, h);
  }
}
