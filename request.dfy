/**
 * `Request`: the builder for one carrier quote. Each field is set once by
 * the rate loop and read back by guarded getters that throw while it is
 * unset; the request also derives the dimensions sent to the carrier and
 * the insurance amount.
 */
module PostageRequest {
  import opened Wrappers
  import opened OrderedMaps
  import opened PhpValues
  import opened Units
  import opened ServiceEnums
  import opened Commerce
  import opened ShippingAddress
  import opened Packing
  import opened ServiceDefinition

  /**
   * `calculateParcelWeight($volume, $weight)`: the greater of actual and
   * cubic weight. It is called on the plugin's `ServiceSupport`, which
   * does not define it: as written the call raises an \Error
   * (`WeigherAsWritten`). The model gives a request the weigher the call
   * evidently means.
   */
  type ParcelWeigher = (PackedBox, Weight) -> Result<Weight>

  /** The request's fields; Null and None mean "not set". */
  datatype RequestState = RequestState(
    packedBox: Option<PackedBox>,
    packageType: Value,
    address: Option<Address>,
    shipment: Option<Shipment>,
    serviceDefinition: Option<Fields>,
    insuranceEnabled: Option<bool>,
    insurancePercentage: Option<real>,
    insuranceLimit: Value)

  const Unset: RequestState := RequestState(None, Null, None, None, None, None, None, Null)

  /** `getPackageType()`. */
  function PackageTypeOf(s: RequestState): (r: Result<Value>)
    ensures r.Err? <==> s.packageType == Null
    ensures r.Ok? ==> r.value == s.packageType
    ensures r.Err? ==> r.error == RequestError("Package type is not set.")
  {
    if s.packageType == Null then Err(RequestError("Package type is not set.")) else Ok(s.packageType)
  }

  /** `getPackedBox()`. */
  function PackedBoxOf(s: RequestState): (r: Result<PackedBox>)
    ensures r.Err? <==> s.packedBox.None?
    ensures r.Ok? ==> r.value == s.packedBox.value
    ensures r.Err? ==> r.error == RequestError("Packed box is not set.")
  {
    if s.packedBox.None? then Err(RequestError("Packed box is not set.")) else Ok(s.packedBox.value)
  }

  /** `getAddress()`. */
  function AddressOf(s: RequestState): (r: Result<Address>)
    ensures r.Err? <==> s.address.None?
    ensures r.Ok? ==> r.value == s.address.value
    ensures r.Err? ==> r.error == RequestError("Address is not set.")
  {
    if s.address.None? then Err(RequestError("Address is not set.")) else Ok(s.address.value)
  }

  /** `getShipment()`. */
  function ShipmentOf(s: RequestState): (r: Result<Shipment>)
    ensures r.Err? <==> s.shipment.None?
    ensures r.Ok? ==> r.value == s.shipment.value
    ensures r.Err? ==> r.error == RequestError("Shipment is not set.")
  {
    if s.shipment.None? then Err(RequestError("Shipment is not set.")) else Ok(s.shipment.value)
  }

  /** `getServiceDefinition()`. */
  function ServiceDefinitionOf(s: RequestState): (r: Result<Fields>)
    ensures r.Err? <==> s.serviceDefinition.None?
    ensures r.Ok? ==> r.value == s.serviceDefinition.value
    ensures r.Err? ==> r.error == RequestError("Service definition is not set.")
  {
    if s.serviceDefinition.None? then Err(RequestError("Service definition is not set.")) else Ok(s.serviceDefinition.value)
  }

  /** `isDomestic()`: the address must be set and must decide it. */
  function IsDomestic(s: RequestState): (r: Result<bool>)
    ensures r.Ok? <==> s.address.Some? && !ShippingAddress.IsEmpty(s.address.value)
    ensures r.Ok? ==> Some(r.value) == ShippingAddress.IsDomestic(s.address.value)
    ensures s.address.Some? && r.Err? ==> r.error == RequestError("Package destination could not be determined.")
  {
    var a :- AddressOf(s);
    match ShippingAddress.IsDomestic(a)
    case None => Err(RequestError("Package destination could not be determined."))
    case Some(b) => Ok(b)
  }

  /** `isParcel()`: reads the field directly, so an unset type is simply not a parcel. */
  predicate IsParcel(s: RequestState)
  {
    s.packageType == Str(ServiceTypeName(Parcel))
  }

  /** The three edges `getPackedDimension()` accepts by name. */
  datatype Edge = LengthEdge | WidthEdge | HeightEdge

  /** The packed box's edge, in millimetres. */
  function PackedEdge(b: PackedBox, e: Edge): Length
  {
    match e
    case LengthEdge => PackedLength(b)
    case WidthEdge => PackedWidth(b)
    case HeightEdge => PackedHeight(b)
  }

  /** A box's edge rounded up to whole centimetres. */
  function EdgeCentimetres(box: PackedBox, e: Edge): (cm: int)
    ensures var exact := InMillimetres(PackedEdge(box, e)) / 10.0;
      exact <= cm as real < exact + 1.0
  {
    Ceil(ConvertLength(PackedEdge(box, e), Centimeter).number)
  }

  /** `getPackedDimension($name)`: the packed box's edge rounded up to whole centimetres. */
  function PackedDimension(s: RequestState, e: Edge): (r: Result<int>)
    ensures r.Ok? <==> s.packedBox.Some?
    ensures r.Ok? ==> r.value == EdgeCentimetres(s.packedBox.value, e)
  {
    var box :- PackedBoxOf(s);
    Ok(EdgeCentimetres(box, e))
  }

  /**
   * `getDimensions()`: the three edges in whole centimetres and the
   * shipping weight the weigher gives for the box's weight in kilograms.
   */
  function Dimensions(s: RequestState, weigher: ParcelWeigher): (r: Result<OMap<Value>>)
    ensures r.Ok? ==> Keys(r.value) == ["length", "width", "height", "weight"]
    ensures r.Ok? ==> s.packedBox.Some?
    ensures r.Ok? ==> (r.value[0].1 == Int(PackedDimension(s, LengthEdge).value)
      && r.value[1].1 == Int(PackedDimension(s, WidthEdge).value)
      && r.value[2].1 == Int(PackedDimension(s, HeightEdge).value))
    ensures s.packedBox.None? ==> r == Err(RequestError("Packed box is not set."))
    ensures s.packedBox.Some? ==>
      var shipping := weigher(s.packedBox.value, ConvertWeight(PackedWeight(s.packedBox.value), Kilogram));
      && (r.Ok? <==> shipping.Ok?)
      && (r.Err? ==> r.error == shipping.error)
      && (r.Ok? ==> r.value[3].1 == Float(shipping.value.number))
  {
    var box :- PackedBoxOf(s);
    var shipping :- weigher(box, ConvertWeight(PackedWeight(box), Kilogram));
    Ok([("length", Int(EdgeCentimetres(box, LengthEdge))), ("width", Int(EdgeCentimetres(box, WidthEdge))),
        ("height", Int(EdgeCentimetres(box, HeightEdge))), ("weight", Float(shipping.number))])
  }

  /**
   * The \Error PHP raises for `$this->serviceSupport->calculateParcelWeight()`:
   * `ServiceSupport` does not define the method.
   */
  const UndefinedParcelWeight: Failure := Fatal("Call to undefined method ServiceSupport::calculateParcelWeight()")

  /** The weigher as written: every call raises `UndefinedParcelWeight`. */
  function WeigherAsWritten(): ParcelWeigher
  {
    (box: PackedBox, weight: Weight) => Err(UndefinedParcelWeight)
  }

  /** As written, `getDimensions()` never returns: without a box it throws the RequestException, with one the \Error. */
  lemma DimensionsFailAsWritten(s: RequestState)
    ensures Dimensions(s, WeigherAsWritten())
      == Err(if s.packedBox.None? then RequestError("Packed box is not set.") else UndefinedParcelWeight)
  {
    if s.packedBox.Some? {
      var box := s.packedBox.value;
      assert WeigherAsWritten()(box, ConvertWeight(PackedWeight(box), Kilogram)) == Err(UndefinedParcelWeight);
    }
  }

  /** `getServiceCode()`. */
  function ServiceCodeOf(s: RequestState): (r: Result<Value>)
    ensures r.Ok? <==> s.serviceDefinition.Some?
    ensures r.Ok? ==> r.value == s.serviceDefinition.value.serviceCode
  {
    var d :- ServiceDefinitionOf(s);
    Ok(d.serviceCode)
  }

  /** `getExtraServiceOptions()`: the definition's non-empty option codes. */
  function ExtraServiceOptions(s: RequestState): (r: Result<OMap<Value>>)
    ensures r.Ok? <==> s.serviceDefinition.Some?
    ensures r.Ok? ==> r.value == AllOptions(s.serviceDefinition.value)
  {
    var d :- ServiceDefinitionOf(s);
    Ok(AllOptions(d))
  }

  datatype InsuranceOptions = InsuranceOptions(enabled: bool, percentage: real, limit: Value)

  /** The insurance properties `getInsuranceOptions()` insists on, in order. */
  const InsuranceProps: seq<string> := ["insuranceEnabled", "insurancePercentage", "insuranceLimit"]

  predicate InsurancePropSet(s: RequestState, prop: string)
  {
    match prop
    case "insuranceEnabled" => s.insuranceEnabled.Some?
    case "insurancePercentage" => s.insurancePercentage.Some?
    case _ => s.insuranceLimit != Null
  }

  function PropNotSet(prop: string): Failure
  {
    RequestError("Required property '" + prop + "' is not set.")
  }

  /** `getInsuranceOptions()`: all three properties, or the first one unset. */
  function InsuranceOptionsOf(s: RequestState): (r: Result<InsuranceOptions>)
    ensures r.Ok? <==> s.insuranceEnabled.Some? && s.insurancePercentage.Some? && s.insuranceLimit != Null
    ensures r.Ok? ==> r.value == InsuranceOptions(s.insuranceEnabled.value, s.insurancePercentage.value, s.insuranceLimit)
    ensures r.Err? ==> exists prop :: prop in InsuranceProps && !InsurancePropSet(s, prop) && r.error == PropNotSet(prop)
  {
    if s.insuranceEnabled.None? then Err(PropNotSet("insuranceEnabled"))
    else if s.insurancePercentage.None? then Err(PropNotSet("insurancePercentage"))
    else if s.insuranceLimit == Null then Err(PropNotSet("insuranceLimit"))
    else Ok(InsuranceOptions(s.insuranceEnabled.value, s.insurancePercentage.value, s.insuranceLimit))
  }

  /** The insured share of the order total. */
  function Share(total: real, percentage: real): real
  {
    total * percentage
  }

  /** The insurance amount before rounding: the order total times the percentage, capped at the cover when limited. */
  function CappedAmount(total: real, percentage: real, limited: bool, maxCover: real): real
  {
    var amount := Share(total, percentage);
    if limited && amount > maxCover then maxCover else amount
  }

  /**
   * `getInsuranceAmount()`: 0 when the service has no extra cover (before
   * the insurance options are read) or insurance is off; otherwise the
   * order total times the percentage, capped at the cover when limited,
   * rounded up to whole dollars.
   */
  function InsuranceAmount(s: RequestState): Result<int>
  {
    var definition :- ServiceDefinitionOf(s);
    var maxCover := definition.extraCover;
    if maxCover == Null || maxCover == Int(0) then Ok(0)
    else
      var opts :- InsuranceOptionsOf(s);
      if !opts.enabled then Ok(0)
      else
        var shipment :- ShipmentOf(s);
        var total := shipment.order.totalPrice.number;
        if !Empty(opts.limit) then
          match NumberOf(maxCover)
          case None => Err(InvalidArgument("The provided value is not a numeric value."))
          case Some(m) => Ok(Ceil(CappedAmount(total, opts.percentage, true, m)))
        else Ok(Ceil(CappedAmount(total, opts.percentage, false, 0.0)))
  }

  /** Without extra cover there is no insurance, and no insurance option is even looked at. */
  lemma NoCoverNoInsurance(s: RequestState)
    requires s.serviceDefinition.Some?
    requires s.serviceDefinition.value.extraCover in {Null, Int(0)}
    ensures InsuranceAmount(s) == Ok(0)
  {
  }

  /** Insurance switched off costs nothing. */
  lemma DisabledNoInsurance(s: RequestState)
    requires s.serviceDefinition.Some? && !(s.serviceDefinition.value.extraCover in {Null, Int(0)})
    requires InsuranceOptionsOf(s).Ok? && !InsuranceOptionsOf(s).value.enabled
    ensures InsuranceAmount(s) == Ok(0)
  {
  }

  /**
   * With the limit on, the amount never exceeds the service's cover; below
   * the cover it is the order total times the percentage, rounded up.
   */
  lemma LimitedInsuranceCapped(s: RequestState, cover: int)
    requires s.serviceDefinition.Some? && s.serviceDefinition.value.extraCover == Int(cover) && cover != 0
    requires s.shipment.Some?
    requires InsuranceOptionsOf(s).Ok? && InsuranceOptionsOf(s).value.enabled && !Empty(InsuranceOptionsOf(s).value.limit)
    ensures InsuranceAmount(s).Ok?
    ensures InsuranceAmount(s).value <= cover
    ensures var amount := s.shipment.value.order.totalPrice.number * s.insurancePercentage.value;
      amount <= cover as real ==> InsuranceAmount(s).value == Ceil(amount)
  {
    var amount := s.shipment.value.order.totalPrice.number * s.insurancePercentage.value;
    var capped := CappedAmount(s.shipment.value.order.totalPrice.number, s.insurancePercentage.value, true, cover as real);
    assert InsuranceAmount(s) == Ok(Ceil(capped));
    assert capped <= cover as real;
    assert Ceil(cover as real) == cover;
  }

  /** With the limit off, the amount is the order total times the percentage, rounded up, however large. */
  lemma UnlimitedInsurance(s: RequestState)
    requires s.serviceDefinition.Some? && !(s.serviceDefinition.value.extraCover in {Null, Int(0)})
    requires s.shipment.Some?
    requires InsuranceOptionsOf(s).Ok? && InsuranceOptionsOf(s).value.enabled && Empty(InsuranceOptionsOf(s).value.limit)
    ensures InsuranceAmount(s) == Ok(Ceil(s.shipment.value.order.totalPrice.number * s.insurancePercentage.value))
  {
    var total := s.shipment.value.order.totalPrice.number;
    assert CappedAmount(total, s.insurancePercentage.value, false, 0.0) == total * s.insurancePercentage.value;
  }

  class Request {
    var packedBox: Option<PackedBox>
    var packageType: Value
    var address: Option<Address>
    var shipment: Option<Shipment>
    var serviceDefinition: Option<Fields>
    var insuranceEnabled: Option<bool>
    var insurancePercentage: Option<real>
    var insuranceLimit: Value
    const weigher: ParcelWeigher

    function State(): RequestState
      reads this
    {
      RequestState(packedBox, packageType, address, shipment, serviceDefinition,
                   insuranceEnabled, insurancePercentage, insuranceLimit)
    }

    constructor(weigher: ParcelWeigher)
      ensures State() == Unset && this.weigher == weigher
    {
      packedBox, packageType, address, shipment, serviceDefinition := None, Null, None, None, None;
      insuranceEnabled, insurancePercentage, insuranceLimit := None, None, Null;
      this.weigher := weigher;
    }

    /** `setPackageType()`: only a known service type is stored. */
    method SetPackageType(v: Value) returns (r: Result<()>)
      modifies this
      ensures r.Ok? <==> AssertServiceType(v).Ok?
      ensures r.Ok? ==> State() == old(State()).(packageType := v)
      ensures r.Err? ==> State() == old(State()) && r.error == RequestError("Unknown package type '" + Interpolate(v) + "'.")
    {
      var check := AssertServiceType(v);
      if check.Err? {
        return Err(RequestError("Unknown package type '" + Interpolate(v) + "'."));
      }
      packageType := v;
      r := Ok(());
    }

    /** `setPackedBox()`. */
    method SetPackedBox(b: PackedBox)
      modifies this
      ensures State() == old(State()).(packedBox := Some(b))
    {
      packedBox := Some(b);
    }

    /** `setAddress()`. */
    method SetAddress(a: Address)
      modifies this
      ensures State() == old(State()).(address := Some(a))
    {
      address := Some(a);
    }

    /** `setShipment()`. */
    method SetShipment(s: Shipment)
      modifies this
      ensures State() == old(State()).(shipment := Some(s))
    {
      shipment := Some(s);
    }

    /** `setServiceDefinition()`. */
    method SetServiceDefinition(d: Fields)
      modifies this
      ensures State() == old(State()).(serviceDefinition := Some(d))
    {
      serviceDefinition := Some(d);
    }

    /** `setInsuranceOptions()`: the flag and percentage are cast, the limit kept as given. */
    method SetInsuranceOptions(enabled: Value, percentage: Value, limit: Value)
      modifies this
      ensures State() == old(State()).(insuranceEnabled := Some(!Empty(enabled)),
                                       insurancePercentage := Some(ToFloat(percentage)),
                                       insuranceLimit := limit)
    {
      insuranceEnabled := Some(!Empty(enabled));
      insurancePercentage := Some(ToFloat(percentage));
      insuranceLimit := limit;
    }

    /** `getInsuranceOptions()`: the loop over the required properties. */
    method GetInsuranceOptions() returns (r: Result<InsuranceOptions>)
      ensures r == InsuranceOptionsOf(State())
    {
      for i := 0 to |InsuranceProps|
        invariant forall j :: 0 <= j < i ==> InsurancePropSet(State(), InsuranceProps[j])
      {
        if !InsurancePropSet(State(), InsuranceProps[i]) {
          return Err(PropNotSet(InsuranceProps[i]));
        }
      }
      assert InsurancePropSet(State(), InsuranceProps[0]) && InsurancePropSet(State(), InsuranceProps[1])
        && InsurancePropSet(State(), InsuranceProps[2]);
      r := Ok(InsuranceOptions(insuranceEnabled.value, insurancePercentage.value, insuranceLimit));
    }

    /** `getInsuranceAmount()`. */
    method GetInsuranceAmount() returns (r: Result<int>)
      ensures r == InsuranceAmount(State())
    {
      ghost var s := State();
      if serviceDefinition.None? {
        return Err(RequestError("Service definition is not set."));
      }
      var maxExtraCover := serviceDefinition.value.extraCover;
      if maxExtraCover == Null || maxExtraCover == Int(0) {
        return Ok(0);
      }
      var opts := GetInsuranceOptions();
      if opts.Err? {
        return Err(opts.error);
      }
      if !opts.value.enabled {
        return Ok(0);
      }
      if shipment.None? {
        return Err(RequestError("Shipment is not set."));
      }
      assert opts.value == InsuranceOptionsOf(s).value && ShipmentOf(s) == Ok(shipment.value);
      var total := shipment.value.order.totalPrice.number;
      var amount := Share(total, opts.value.percentage);
      if !Empty(opts.value.limit) {
        var max := NumberOf(maxExtraCover);
        if max.None? {
          return Err(InvalidArgument("The provided value is not a numeric value."));
        }
        if amount > max.value {
          amount := max.value;
        }
        assert amount == CappedAmount(total, opts.value.percentage, true, max.value);
      } else {
        assert amount == CappedAmount(total, opts.value.percentage, false, 0.0);
      }
      r := Ok(Ceil(amount));
    }
  }
}
