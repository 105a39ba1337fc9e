/**
 * `ShipmentPacker`: collects package types and order items, hands them to
 * the box-packing library and wraps each packed box it gets back. The
 * library's own algorithm is not modelled: it is the function a
 * `BoxPacker` is created with.
 */
module Packing {
  import opened Wrappers
  import opened OrderedMaps
  import opened PhpValues
  import opened Units
  import opened Commerce
  import opened PackableItems
  import opened PackageTypes

  /** A box as the library returns it: its type, the items in it and its gross weight in grams. */
  datatype LibraryPackedBox = LibraryPackedBox(box: PackageType, items: seq<PackableItem>, weight: int)

  /** `Packer::pack()`: the packed boxes, or an ItemTooLargeException when some item fits no box. */
  type PackAlgorithm = (seq<PackageType>, seq<PackableItem>) -> Result<seq<LibraryPackedBox>>

  /** `PackedBox`: the plugin's wrapper around one library box. */
  datatype PackedBox = PackedBox(raw: LibraryPackedBox)

  /** `PackedBox::getWeight()`: the library's weight, in grams. */
  function PackedWeight(b: PackedBox): (w: Weight)
    ensures InGrams(w) == b.raw.weight as real
  {
    Weight(b.raw.weight as real, Gram)
  }

  /** `PackedBox::getLength()`: the box type's inner length, in millimetres. */
  function PackedLength(b: PackedBox): (l: Length)
    ensures InMillimetres(l) == InnerLength(b.raw.box) as real
  {
    Length(InnerLength(b.raw.box) as real, Millimeter)
  }

  /** `PackedBox::getWidth()`. */
  function PackedWidth(b: PackedBox): (l: Length)
    ensures InMillimetres(l) == InnerWidth(b.raw.box) as real
  {
    Length(InnerWidth(b.raw.box) as real, Millimeter)
  }

  /** `PackedBox::getHeight()`: the box type's inner depth. */
  function PackedHeight(b: PackedBox): (l: Length)
    ensures InMillimetres(l) == InnerDepth(b.raw.box) as real
  {
    Length(InnerDepth(b.raw.box) as real, Millimeter)
  }

  /**
   * `getPackedBoxes()` as written: it calls `new PackedBox($box)`, but that
   * constructor is private, so the first box raises an \Error.
   */
  function WrapAsWritten(boxes: seq<LibraryPackedBox>): (r: Result<seq<PackedBox>>)
    ensures r.Ok? <==> boxes == []
    ensures r.Ok? ==> r.value == []
    ensures r.Err? ==> r.error.Fatal?
  {
    if boxes == [] then Ok([])
    else Err(Fatal("Call to private PackedBox::__construct() from scope ShipmentPacker"))
  }

  /** `getPackedBoxes()` through `PackedBox::create()`: one wrapper per box, in order. */
  function WrapBoxes(boxes: seq<LibraryPackedBox>): (r: seq<PackedBox>)
    ensures |r| == |boxes|
    ensures forall i :: 0 <= i < |r| ==> r[i].raw == boxes[i]
  {
    seq(|boxes|, i requires 0 <= i < |boxes| => PackedBox(boxes[i]))
  }

  /** Any packing that yields a box fails as written, where the corrected wrapping yields all of them. */
  lemma PrivateConstructorBreaksPacking(boxes: seq<LibraryPackedBox>)
    requires boxes != []
    ensures WrapAsWritten(boxes).Err? && WrapAsWritten(boxes).error.Fatal?
    ensures |WrapBoxes(boxes)| == |boxes| > 0
  {
  }

  /** The library's packer: it accumulates boxes and items and packs everything it holds. */
  class BoxPacker {
    var boxes: seq<PackageType>
    var items: seq<PackableItem>
    const algorithm: PackAlgorithm

    constructor(algorithm: PackAlgorithm)
      ensures boxes == [] && items == [] && this.algorithm == algorithm
    {
      boxes, items := [], [];
      this.algorithm := algorithm;
    }

    /** `addBox()`. */
    method AddBox(b: PackageType)
      modifies this
      ensures boxes == old(boxes) + [b] && items == old(items)
    {
      boxes := boxes + [b];
    }

    /** `addItem()`. */
    method AddItem(item: PackableItem)
      modifies this
      ensures items == old(items) + [item] && boxes == old(boxes)
    {
      items := items + [item];
    }

    /** `pack()`: every box and item added so far. */
    method Pack() returns (r: Result<seq<LibraryPackedBox>>)
      ensures r == algorithm(boxes, items)
    {
      r := algorithm(boxes, items);
    }
  }

  /**
   * Building `xs` one by one onto `acc` until the first failure: what was
   * built, and the failure that stopped it, if any.
   */
  function BuildAll<S, T>(acc: seq<T>, xs: seq<S>, build: S -> Result<T>): (seq<T>, Option<Failure>)
    decreases |xs|
  {
    if xs == [] then (acc, None)
    else match build(xs[0])
      case Err(f) => (acc, Some(f))
      case Ok(y) => BuildAll(acc + [y], xs[1..], build)
  }

  /** What is built keeps `acc` and appends, in order, one result per element built. */
  lemma {:induction false} BuildAllAppends<S, T>(acc: seq<T>, xs: seq<S>, build: S -> Result<T>)
    ensures var ys := BuildAll(acc, xs, build).0;
      && |acc| <= |ys| <= |acc| + |xs|
      && ys[..|acc|] == acc
      && (forall i :: |acc| <= i < |ys| ==> build(xs[i - |acc|]) == Ok(ys[i]))
    decreases |xs|
  {
    if xs != [] && build(xs[0]).Ok? {
      var acc' := acc + [build(xs[0]).value];
      BuildAllAppends(acc', xs[1..], build);
      var ys := BuildAll(acc', xs[1..], build).0;
      assert ys[..|acc|] == ys[..|acc'|][..|acc|];
      forall i | |acc| <= i < |ys|
        ensures build(xs[i - |acc|]) == Ok(ys[i])
      {
        if i > |acc| {
          assert xs[1..][i - |acc'|] == xs[i - |acc|];
        }
      }
    }
  }

  /**
   * Building stops at the first failure: without one every element is
   * built, and with one the failure is that element's and nothing after
   * it is built.
   */
  lemma {:induction false} BuildAllStops<S, T>(acc: seq<T>, xs: seq<S>, build: S -> Result<T>)
    ensures var (ys, failure) := BuildAll(acc, xs, build);
      && (failure.None? <==> (forall i :: 0 <= i < |xs| ==> build(xs[i]).Ok?))
      && (failure.None? ==> |ys| == |acc| + |xs|)
      && (failure.Some? ==> (&& |acc| <= |ys| < |acc| + |xs|
                             && build(xs[|ys| - |acc|]) == Err(failure.value)))
    decreases |xs|
  {
    if xs != [] && build(xs[0]).Ok? {
      var acc' := acc + [build(xs[0]).value];
      BuildAllStops(acc', xs[1..], build);
      var (ys, failure) := BuildAll(acc', xs[1..], build);
      if failure.None? {
        forall i | 0 <= i < |xs| ensures build(xs[i]).Ok? {
          if i > 0 { assert xs[1..][i - 1] == xs[i]; }
        }
      } else {
        assert xs[1..][|ys| - |acc'|] == xs[|ys| - |acc|];
      }
    }
  }

  /** `new PackableCommercePackageType(...)` for a fixed destination and validator. */
  function Builder(destination: string, validate: SizeValidator): OMap<Value> -> Result<PackageType>
  {
    d => Construct(d, destination, validate)
  }

  /** The wrappers `addOrderItems()` appends, one per order item, in order. */
  function WrapItems(items: seq<OrderItem>): (r: seq<PackableItem>)
    ensures |r| == |items|
    ensures forall i :: 0 <= i < |r| ==> r[i] == PackableItem(items[i])
  {
    seq(|items|, i requires 0 <= i < |items| => PackableItem(items[i]))
  }

  class ShipmentPacker {
    const packer: BoxPacker
    const validate: SizeValidator
    var packageTypes: seq<PackageType>
    var orderItems: seq<PackableItem>

    constructor(packer: BoxPacker, validate: SizeValidator)
      ensures this.packer == packer && this.validate == validate
      ensures packageTypes == [] && orderItems == []
    {
      this.packer := packer;
      this.validate := validate;
      packageTypes, orderItems := [], [];
    }

    /** `addPackageType()`: appends the wrapped type; an invalid type leaves the list as it was. */
    method AddPackageType(definition: OMap<Value>, destination: string) returns (r: Result<()>)
      modifies this
      ensures r.Ok? <==> Construct(definition, destination, validate).Ok?
      ensures r.Ok? ==> packageTypes == old(packageTypes) + [Construct(definition, destination, validate).value]
      ensures r.Err? ==> packageTypes == old(packageTypes) && r.error == Construct(definition, destination, validate).error
      ensures orderItems == old(orderItems)
    {
      var p := NewPackageType(definition, destination, validate);
      if p.Err? {
        return Err(p.error);
      }
      packageTypes := packageTypes + [p.value];
      r := Ok(());
    }

    /** `addPackageTypes()`: single adds in order, stopping at the first invalid type. */
    method AddPackageTypes(definitions: seq<OMap<Value>>, destination: string) returns (r: Result<()>)
      modifies this
      ensures packageTypes == BuildAll(old(packageTypes), definitions, Builder(destination, validate)).0
      ensures r.Err? <==> BuildAll(old(packageTypes), definitions, Builder(destination, validate)).1.Some?
      ensures r.Err? ==> r.error == BuildAll(old(packageTypes), definitions, Builder(destination, validate)).1.value
      ensures orderItems == old(orderItems)
    {
      for i := 0 to |definitions|
        invariant BuildAll(packageTypes, definitions[i..], Builder(destination, validate))
               == BuildAll(old(packageTypes), definitions, Builder(destination, validate))
        invariant orderItems == old(orderItems)
      {
        assert definitions[i..][1..] == definitions[i + 1..];
        var step := AddPackageType(definitions[i], destination);
        if step.Err? {
          return Err(step.error);
        }
      }
      assert definitions[|definitions|..] == [];
      r := Ok(());
    }

    /** `addOrderItem()`. */
    method AddOrderItem(item: OrderItem)
      modifies this
      ensures orderItems == old(orderItems) + [PackableItem(item)]
      ensures packageTypes == old(packageTypes)
    {
      orderItems := orderItems + [PackableItem(item)];
    }

    /** `addOrderItems()`: single adds in order. */
    method AddOrderItems(items: seq<OrderItem>)
      modifies this
      ensures orderItems == old(orderItems) + WrapItems(items)
      ensures packageTypes == old(packageTypes)
    {
      for i := 0 to |items|
        invariant orderItems == old(orderItems) + WrapItems(items[..i])
        invariant packageTypes == old(packageTypes)
      {
        assert WrapItems(items[..i + 1]) == WrapItems(items[..i]) + [PackableItem(items[i])];
        AddOrderItem(items[i]);
      }
      assert items[..|items|] == items;
    }

    /**
     * The loops of `pack()`: every stored package type, then every stored
     * order item, added to the library's packer. Nothing is removed, so a
     * second call adds everything again.
     */
    method FeedPacker()
      modifies packer
      ensures packer.boxes == old(packer.boxes) + packageTypes
      ensures packer.items == old(packer.items) + orderItems
    {
      for i := 0 to |packageTypes|
        invariant packer.boxes == old(packer.boxes) + packageTypes[..i]
        invariant packer.items == old(packer.items)
      {
        assert packageTypes[..i + 1] == packageTypes[..i] + [packageTypes[i]];
        packer.AddBox(packageTypes[i]);
      }
      assert packageTypes[..|packageTypes|] == packageTypes;
      for i := 0 to |orderItems|
        invariant packer.boxes == old(packer.boxes) + packageTypes
        invariant packer.items == old(packer.items) + orderItems[..i]
      {
        assert orderItems[..i + 1] == orderItems[..i] + [orderItems[i]];
        packer.AddItem(orderItems[i]);
      }
      assert orderItems[..|orderItems|] == orderItems;
    }

    /** `pack()` as written, wrapping through the private constructor. */
    method PackAsWritten() returns (r: Result<seq<PackedBox>>)
      modifies packer
      ensures packer.boxes == old(packer.boxes) + packageTypes
      ensures packer.items == old(packer.items) + orderItems
      ensures var raw := packer.algorithm(packer.boxes, packer.items);
        r == if raw.Err? then Err(raw.error) else WrapAsWritten(raw.value)
    {
      FeedPacker();
      var raw := packer.Pack();
      if raw.Err? {
        return Err(raw.error);
      }
      r := WrapAsWritten(raw.value);
    }

    /** `pack()` wrapping each packed box through `PackedBox::create()`. */
    method Pack() returns (r: Result<seq<PackedBox>>)
      modifies packer
      ensures packer.boxes == old(packer.boxes) + packageTypes
      ensures packer.items == old(packer.items) + orderItems
      ensures var raw := packer.algorithm(packer.boxes, packer.items);
        r == if raw.Err? then Err(raw.error) else Ok(WrapBoxes(raw.value))
    {
      FeedPacker();
      var raw := packer.Pack();
      if raw.Err? {
        return Err(raw.error);
      }
      r := Ok(WrapBoxes(raw.value));
    }
  }
}
