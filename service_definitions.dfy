/**
 * The legacy service catalogue (`ServiceDefinitions`): thirteen parcel
 * services, ten domestic and three international, each keyed by an
 * internal name and carrying the carrier's service code and options. The
 * letter services of this file are all commented out. The same thirteen
 * entries are repeated, line for line, as the private table of
 * `SupportedServices`.
 */
module ServiceDefinitions {
  import opened Wrappers
  import opened OrderedMaps
  import opened Units
  import opened ServiceEnums

  /** The density the carrier uses to compute cubic weight. */
  const CubicWeightDensity: int := 250

  /** The largest parcel the carrier takes to one destination. */
  datatype ParcelLimits = ParcelLimits(
    length: Length,
    weight: Weight,
    volumeCubicMetres: Option<real>,
    girth: Option<Length>)

  /** `maxParcelDimensions()`, looked up by destination. */
  function MaxParcelDimensions(d: Destination): (r: ParcelLimits)
    ensures InMillimetres(r.length) == 1050.0
    ensures InGrams(r.weight) == if d == Domestic then 22000.0 else 20000.0
    ensures r.volumeCubicMetres.Some? <==> d == Domestic
    ensures r.girth.Some? <==> d == International
    ensures r.volumeCubicMetres.Some? ==> r.volumeCubicMetres.value == 0.25
    ensures r.girth.Some? ==> InMillimetres(r.girth.value) == 1400.0
  {
    match d
    case Domestic => ParcelLimits(Length(105.0, Centimeter), Weight(22.0, Kilogram), Some(0.25), None)
    case International => ParcelLimits(Length(105.0, Centimeter), Weight(20.0, Kilogram), None, Some(Length(140.0, Centimeter)))
  }

  /**
   * One catalogue entry. An empty option string in the source is `None`
   * here; every other option string is one of the carrier's constants.
   */
  datatype Service = Service(
    key: string,
    serviceType: ServiceType,
    destination: Destination,
    title: string,
    displayTitle: string,
    description: string,
    serviceCode: ServiceCode,
    optionCode: Option<ServiceOption>,
    subOptCode: Option<ServiceOption>,
    extraCover: nat)

  const ServiceCount: nat := 13

  function ServiceAt(i: nat): Service
    requires i < ServiceCount
  {
    match i
    case 0 =>  // 76-86
      Service("AUS_SERVICE_OPTION_STANDARD", Parcel, Domestic,
        "Regular, Standard", "Standard Post", "Australia Post - 2-6 Days",
        AusParcelRegular, Some(AusServiceOptionStandard), None, 0)
    case 1 =>  // 87-97
      Service("AUS_SERVICE_OPTION_SIGNATURE", Parcel, Domestic,
        "Regular, Signature required", "Standard Post, Signature required", "Australia Post - 2-6 Days",
        AusParcelRegular, Some(AusServiceOptionSignatureOnDelivery), None, 0)
    case 2 =>  // 98-108
      Service("AUS_SERVICE_OPTION_INS", Parcel, Domestic,
        "Regular, Insured", "Standard Post (Insured)", "Australia Post - 2-6 Days",
        AusParcelRegular, Some(AusServiceOptionStandard), Some(AusServiceOptionExtraCover), 300)
    case 3 =>  // 109-119
      Service("AUS_SERVICE_OPTION_SIG_INS", Parcel, Domestic,
        "Regular, Signature required, Insured", "Standard Post (Insured), Signature required", "Australia Post - 2-6 Days",
        AusParcelRegular, Some(AusServiceOptionSignatureOnDelivery), Some(AusServiceOptionExtraCover), 5000)
    case 4 =>  // 120-130
      Service("AUS_PARCEL_EXPRESS", Parcel, Domestic,
        "Express Post", "Express Post", "Australia Post - 1-3 Days",
        AusParcelExpress, Some(AusServiceOptionStandard), None, 0)
    case 5 =>  // 131-141
      Service("AUS_PARCEL_EXPRESS_SIGNATURE", Parcel, Domestic,
        "Express Post, Signature required", "Express Post, Signature required", "Australia Post - 1-3 Days",
        AusParcelExpress, Some(AusServiceOptionSignatureOnDelivery), None, 0)
    case 6 =>  // 142-152
      Service("AUS_PARCEL_EXPRESS_INS", Parcel, Domestic,
        "Express Post, Insured", "Express Post (Insured)", "Australia Post - 1-3 Days",
        AusParcelExpress, Some(AusServiceOptionStandard), Some(AusServiceOptionExtraCover), 300)
    case 7 =>  // 153-163
      Service("AUS_PARCEL_EXPRESS_SIG_INS", Parcel, Domestic,
        "Express Post, Signature reqd, Insured", "Express Post (Insured), Signature required", "Australia Post - 1-3 Days",
        AusParcelExpress, Some(AusServiceOptionSignatureOnDelivery), Some(AusServiceOptionExtraCover), 5000)
    case 8 =>  // 164-174
      Service("AUS_PARCEL_COURIER", Parcel, Domestic,
        "Courier Post", "Courier Post", "Australia Post - Same Day Delivery",
        AusParcelCourier, Some(AusServiceOptionStandard), None, 0)
    case 9 =>  // 175-185
      Service("AUS_PARCEL_COUR_INS", Parcel, Domestic,
        "Courier Post, Insured", "Courier Post (Insured)", "Australia Post - Same Day Delivery",
        AusParcelCourier, Some(AusServiceOptionStandard), Some(AusServiceOptionExtraCover), 5000)
    case 10 =>  // 237-247
      Service("INT_PARCEL_AIR_OWN_PACKAGING", Parcel, International,
        "Int Economy Air", "International Economy Air", "Australia Post - 10+ Days",
        IntParcelAirOwnPackaging, None, None, 0)
    case 11 =>  // 248-258
      Service("INT_PARCEL_AIR_OWN_PACK_SIG", Parcel, International,
        "Int Economy Air, Signature required", "International Economy Air, Signature required", "Australia Post - 10+ Days",
        IntParcelAirOwnPackaging, Some(IntSignatureOnDelivery), None, 0)
    case _ =>  // 259-269
      Service("INT_PARCEL_AIR_OWN_PACK_INS", Parcel, International,
        "Int Economy Air, Insured", "International Economy Air (Insured)", "Australia Post - 10+ Days",
        IntParcelAirOwnPackaging, Some(IntExtraCover), None, 5000)
  }

  /** `services()`: the entries in the order the source lists them. */
  function Services(): (s: seq<Service>)
    ensures |s| == ServiceCount
    ensures forall i :: 0 <= i < ServiceCount ==> s[i] == ServiceAt(i)
  {
    seq(ServiceCount, i requires 0 <= i < ServiceCount => ServiceAt(i))
  }

  /** No two entries share a key, so the PHP array loses none of them. */
  lemma ServiceKeysDistinct()
    ensures forall i, j :: 0 <= i < j < ServiceCount ==> ServiceAt(i).key != ServiceAt(j).key
  {
  }

  /** Entry `i` is a parcel, and domestic exactly when it is one of the first ten. */
  lemma EntryKind(i: nat)
    requires i < ServiceCount
    ensures ServiceAt(i).serviceType == Parcel
    ensures ServiceAt(i).destination == Domestic <==> i < 10
  {
  }

  /** An entry costs extra cover exactly when it asks for an extra-cover option. */
  predicate AsksForExtraCover(s: Service)
  {
    s.subOptCode == Some(AusServiceOptionExtraCover) || s.optionCode == Some(IntExtraCover)
  }

  /**
   * The shape of the catalogue: all parcels, the first ten domestic and the
   * rest international; domestic entries use the regular, express or courier
   * parcel codes, international ones economy air; extra cover is 0, 300 or
   * 5000 and non-zero exactly for the insured entries.
   */
  lemma CatalogueShape()
    ensures forall i :: 0 <= i < ServiceCount ==>
      && ServiceAt(i).serviceType == Parcel
      && (ServiceAt(i).destination == Domestic <==> i < 10)
      && (ServiceAt(i).destination == Domestic ==>
            ServiceAt(i).serviceCode in {AusParcelRegular, AusParcelExpress, AusParcelCourier})
      && (ServiceAt(i).destination == International ==> ServiceAt(i).serviceCode == IntParcelAirOwnPackaging)
      && ServiceAt(i).extraCover in {0, 300, 5000}
      && (ServiceAt(i).extraCover > 0 <==> AsksForExtraCover(ServiceAt(i)))
  {
    CatalogueShape0To5();
    CatalogueShape5To10();
    CatalogueShape10To13();
  }

  lemma CatalogueShape0To5()
    ensures forall i :: 0 <= i < 5 ==>
      && ServiceAt(i).serviceType == Parcel
      && ServiceAt(i).extraCover in {0, 300, 5000}
      && (ServiceAt(i).extraCover > 0 <==> AsksForExtraCover(ServiceAt(i)))
      && ServiceAt(i).destination == Domestic
      && ServiceAt(i).serviceCode in {AusParcelRegular, AusParcelExpress, AusParcelCourier}
  {
  }

  lemma CatalogueShape5To10()
    ensures forall i :: 5 <= i < 10 ==>
      && ServiceAt(i).serviceType == Parcel
      && ServiceAt(i).extraCover in {0, 300, 5000}
      && (ServiceAt(i).extraCover > 0 <==> AsksForExtraCover(ServiceAt(i)))
      && ServiceAt(i).destination == Domestic
      && ServiceAt(i).serviceCode in {AusParcelRegular, AusParcelExpress, AusParcelCourier}
  {
  }

  lemma CatalogueShape10To13()
    ensures forall i :: 10 <= i < 13 ==>
      && ServiceAt(i).serviceType == Parcel
      && ServiceAt(i).extraCover in {0, 300, 5000}
      && (ServiceAt(i).extraCover > 0 <==> AsksForExtraCover(ServiceAt(i)))
      && ServiceAt(i).destination == International
      && ServiceAt(i).serviceCode == IntParcelAirOwnPackaging
  {
  }
}
