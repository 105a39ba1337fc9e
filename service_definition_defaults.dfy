/**
 * The catalogue the service-definition plugins are derived from
 * (`ServiceDefinitionDefaults`): 48 services — domestic and international
 * parcels, domestic and international letters — each keyed by an internal
 * name. Letter entries also carry the largest envelope the service takes,
 * in millimetres and grams, under the keys length, width, thickness and
 * weight.
 */
module ServiceDefinitionDefaults {
  import opened Wrappers
  import opened OrderedMaps
  import opened PhpValues
  import opened ServiceEnums
  import opened Units
  import ServiceDefinitions

  /** The density the carrier uses to compute cubic weight. */
  const CubicWeightDensity: int := 250

  /**
   * `maxParcelDimensions()`: 105 cm for either destination, 22 kg and
   * 0.25 m³ at home, 20 kg and 140 cm girth abroad — the same limits the
   * legacy catalogue gives.
   */
  function MaxParcelDimensions(d: Destination): (r: ServiceDefinitions.ParcelLimits)
    ensures InMillimetres(r.length) == 1050.0
    ensures InGrams(r.weight) == if d == Domestic then 22000.0 else 20000.0
    ensures r.volumeCubicMetres.Some? <==> d == Domestic
    ensures r.girth.Some? <==> d == International
    ensures r.volumeCubicMetres.Some? ==> r.volumeCubicMetres.value == 0.25
    ensures r.girth.Some? ==> InMillimetres(r.girth.value) == 1400.0
  {
    ServiceDefinitions.MaxParcelDimensions(d)
  }

  /** A letter service's largest envelope: millimetres, and grams for the weight. */
  datatype LetterLimits = LetterLimits(length: nat, width: nat, thickness: nat, weight: nat)

  /** One catalogue entry; an empty option string in the source is `None` here. */
  datatype DefaultService = DefaultService(
    key: string,
    serviceType: ServiceType,
    destination: Destination,
    description: string,
    serviceCode: ServiceCode,
    optionCode: Option<ServiceOption>,
    subOptCode: Option<ServiceOption>,
    extraCover: nat,
    maxDimensions: Option<LetterLimits>)

  const ServiceCount: nat := 48

  /** The entry keys, in the order the source lists them. */
  function KeyAt(i: nat): string
    requires i < ServiceCount
  {
    match i
    case 0 => "AUS_SERVICE_OPTION_STANDARD"
    case 1 => "AUS_SERVICE_OPTION_SIGNATURE"
    case 2 => "AUS_SERVICE_OPTION_INS"
    case 3 => "AUS_SERVICE_OPTION_SIG_INS"
    case 4 => "AUS_PARCEL_EXPRESS"
    case 5 => "AUS_PARCEL_EXPRESS_SIGNATURE"
    case 6 => "AUS_PARCEL_EXPRESS_INS"
    case 7 => "AUS_PARCEL_EXPRESS_SIG_INS"
    case 8 => "AUS_PARCEL_COURIER"
    case 9 => "AUS_PARCEL_COUR_INS"
    case 10 => "INT_PARCEL_SEA_OWN_PACKAGING"
    case 11 => "INT_PARCEL_SEA_OWN_PACK_SIG"
    case 12 => "INT_PARCEL_SEA_OWN_PACK_INS"
    case 13 => "INT_PARCEL_AIR_OWN_PACKAGING"
    case 14 => "INT_PARCEL_AIR_OWN_PACK_SIG"
    case 15 => "INT_PARCEL_AIR_OWN_PACK_INS"
    case 16 => "INT_PARCEL_STD_OWN_PACKAGING"
    case 17 => "INT_PARCEL_STD_OWN_PACK_SIG"
    case 18 => "INT_PARCEL_STD_OWN_PACK_INS"
    case 19 => "INT_PARCEL_EXP_OWN_PACKAGING"
    case 20 => "INT_PARCEL_EXP_OWN_PACK_INS"
    case 21 => "INT_PARCEL_COR_OWN_PACKAGING"
    case 22 => "INT_PARCEL_COR_OWN_PACK_INS"
    case 23 => "L_AUS_LETTER_SM"
    case 24 => "L_AUS_LETTER_SM_PRIORITY"
    case 25 => "L_AUS_LETTER_LG"
    case 26 => "L_AUS_LETTER_LG_PRIORITY"
    case 27 => "L_AUS_LETTER_SM_REG_POST"
    case 28 => "L_AUS_LETTER_SM_REG_CONF"
    case 29 => "L_AUS_LETTER_SM_REG_P2P"
    case 30 => "L_AUS_LETTER_LG_REG_POST"
    case 31 => "L_AUS_LETTER_LG_REG_POST_CONF"
    case 32 => "L_AUS_LETTER_LG_REG_P2P"
    case 33 => "L_AUS_LETTER_SM_EXP_POST"
    case 34 => "L_AUS_LETTER_SM_EXP_SIG"
    case 35 => "L_AUS_LETTER_MD_EXP"
    case 36 => "L_AUS_LETTER_MD_EXP_SIG"
    case 37 => "L_AUS_LETTER_LG_EXPRESS_POST"
    case 38 => "L_AUS_LETTER_LG_EXP_POST_SIG"
    case 39 => "L_INTL_SERVICE_AIR_MAIL_LGT"
    case 40 => "L_INTL_SERVICE_AIR_MAIL_MED"
    case 41 => "L_INTL_SERVICE_AIR_MAIL_HVY"
    case 42 => "L_INT_LETTER_REG_SMALL"
    case 43 => "L_INT_LETTER_REG_LARGE"
    case 44 => "L_INT_LET_EXP_OWN_PKG"
    case 45 => "L_INT_LET_EXP_OWN_PKG_INS"
    case 46 => "L_INT_LET_COR_OWN_PKG"
    case _ => "L_INT_LET_COR_OWN_PKG_INS"
  }

  function DescriptionAt(i: nat): string
    requires i < ServiceCount
  {
    match i
    case 0 => "Australia Post Standard Post - 2-6 Days"
    case 1 => "Australia Post Standard Post, Signature required - 2-6 Days"
    case 2 => "Australia Post Standard Post (Insured) - 2-6 Days"
    case 3 => "Australia Post Standard Post (Insured), Signature required - 2-6 Days"
    case 4 => "Australia Post Express Post - 1-3 Days"
    case 5 => "Australia Post Express Post, Signature required - 1-3 Days"
    case 6 => "Australia Post Express Post (Insured) - 1-3 Days"
    case 7 => "Australia Post Express Post (Insured), Signature required - 1-3 Days"
    case 8 => "Australia Post Courier Post - Same Day Delivery"
    case 9 => "Australia Post Courier Post (Insured) - Same Day Delivery"
    case 10 => "Australia Post International Economy Sea - 30+ Days"
    case 11 => "Australia Post International Economy Sea, Signature required - 30+ Days"
    case 12 => "Australia Post International Economy Sea (Insured) - 30+ Days"
    case 13 => "Australia Post International Economy Air - 10+ Days"
    case 14 => "Australia Post International Economy Air, Signature required - 10+ Days"
    case 15 => "Australia Post International Economy Air (Insured) - 10+ Days"
    case 16 => "Australia Post International Standard - 6+ Days"
    case 17 => "Australia Post International Standard, Signature required - 6+ Days"
    case 18 => "Australia Post International Standard (Insured) - 6+ Days"
    case 19 => "Australia Post International Express - 2-4 Days"
    case 20 => "Australia Post International Express (Insured) - 2-4 Days"
    case 21 => "Australia Post International Courier - 1-2 Days"
    case 22 => "Australia Post International Courier (Insured) - 1-2 Days"
    case 23 => "Australia Post Standard Letter - 2-6 Days"
    case 24 => "Australia Post Standard Letter Priority - 1-4 Days"
    case 25 => "Australia Post Standard Letter - 2-6 Days"
    case 26 => "Australia Post Standard Letter Priority - 1-4 Days"
    case 27 => "Australia Post Registered Post Letter - 2-6 Days"
    case 28 => "Australia Post Registered Post Letter - Confirmation - 2-6 Days"
    case 29 => "Australia Post Registered Post Letter - Person to Person - 2-6 Days"
    case 30 => "Australia Post Registered Post Letter Large - 2-6 Days"
    case 31 => "Australia Post Registered Post Letter Large - Confirmation - 2-6 Days"
    case 32 => "Australia Post Registered Post Letter - Person to Person - 2-6 Days"
    case 33 => "Australia Post Express Post Envelope Small - 1-3 Days"
    case 34 => "Australia Post Express Post Envelope Small - Signature - 1-3 Days"
    case 35 => "Australia Post Express Post Envelope Medium - 1-3 Days"
    case 36 => "Australia Post Express Post Envelope Medium - Signature - 1-3 Days"
    case 37 => "Australia Post Express Post Envelope Large - 1-3 Days"
    case 38 => "Australia Post Express Post Envelope Large - Signature - 1-3 Days"
    case 39 => "Australia Post Air Mail Light - 6+ Days"
    case 40 => "Australia Post Air Mail Medium - 6+ Days"
    case 41 => "Australia Post Air Mail Heavy - 6+ Days"
    case 42 => "Australia Post International Registered Prepaid DL Envelope - 6+ Days"
    case 43 => "Australia Post International Registered Prepaid B4 Envelope - 6+ Days"
    case 44 => "Australia Post International Express Letter - 2+ Days"
    case 45 => "Australia Post International Express Letter (Insured) - 2+ Days"
    case 46 => "Australia Post International Courier Letter - 2+ Days"
    case _ => "Australia Post International Courier Letter (Insured) - 2+ Days"
  }

  /** The fields of an entry other than its key and description. */
  datatype Shape = Shape(
    serviceType: ServiceType,
    destination: Destination,
    serviceCode: ServiceCode,
    optionCode: Option<ServiceOption>,
    subOptCode: Option<ServiceOption>,
    extraCover: nat,
    maxDimensions: Option<LetterLimits>)

  function ShapeAt(i: nat): Shape
    requires i < ServiceCount
  {
    match i
    case 0 => Shape(Parcel, Domestic, AusParcelRegular, Some(AusServiceOptionStandard), None, 0, None)  // lines 64-72
    case 1 => Shape(Parcel, Domestic, AusParcelRegular, Some(AusServiceOptionSignatureOnDelivery), None, 0, None)  // lines 73-81
    case 2 => Shape(Parcel, Domestic, AusParcelRegular, Some(AusServiceOptionStandard), Some(AusServiceOptionExtraCover), 300, None)  // lines 82-90
    case 3 => Shape(Parcel, Domestic, AusParcelRegular, Some(AusServiceOptionSignatureOnDelivery), Some(AusServiceOptionExtraCover), 5000, None)  // lines 91-99
    case 4 => Shape(Parcel, Domestic, AusParcelExpress, Some(AusServiceOptionStandard), None, 0, None)  // lines 100-108
    case 5 => Shape(Parcel, Domestic, AusParcelExpress, Some(AusServiceOptionSignatureOnDelivery), None, 0, None)  // lines 109-117
    case 6 => Shape(Parcel, Domestic, AusParcelExpress, Some(AusServiceOptionStandard), Some(AusServiceOptionExtraCover), 300, None)  // lines 118-126
    case 7 => Shape(Parcel, Domestic, AusParcelExpress, Some(AusServiceOptionSignatureOnDelivery), Some(AusServiceOptionExtraCover), 5000, None)  // lines 127-135
    case 8 => Shape(Parcel, Domestic, AusParcelCourier, Some(AusServiceOptionStandard), None, 0, None)  // lines 136-144
    case 9 => Shape(Parcel, Domestic, AusParcelCourier, Some(AusServiceOptionStandard), Some(AusServiceOptionExtraCover), 5000, None)  // lines 145-153
    case 10 => Shape(Parcel, International, IntParcelSeaOwnPackaging, None, None, 0, None)  // lines 155-163
    case 11 => Shape(Parcel, International, IntParcelSeaOwnPackaging, Some(IntSignatureOnDelivery), None, 0, None)  // lines 164-172
    case 12 => Shape(Parcel, International, IntParcelSeaOwnPackaging, Some(IntExtraCover), None, 5000, None)  // lines 173-181
    case 13 => Shape(Parcel, International, IntParcelAirOwnPackaging, None, None, 0, None)  // lines 197-205
    case 14 => Shape(Parcel, International, IntParcelAirOwnPackaging, Some(IntSignatureOnDelivery), None, 0, None)  // lines 206-214
    case 15 => Shape(Parcel, International, IntParcelAirOwnPackaging, Some(IntExtraCover), None, 5000, None)  // lines 215-223
    case 16 => Shape(Parcel, International, IntParcelStdOwnPackaging, None, None, 0, None)  // lines 239-247
    case 17 => Shape(Parcel, International, IntParcelStdOwnPackaging, Some(IntSignatureOnDelivery), None, 0, None)  // lines 248-256
    case 18 => Shape(Parcel, International, IntParcelStdOwnPackaging, Some(IntExtraCover), None, 5000, None)  // lines 257-265
    case 19 => Shape(Parcel, International, IntParcelExpOwnPackaging, None, None, 0, None)  // lines 281-289
    case 20 => Shape(Parcel, International, IntParcelExpOwnPackaging, Some(IntExtraCover), None, 5000, None)  // lines 290-298
    case 21 => Shape(Parcel, International, IntParcelCorOwnPackaging, None, None, 0, None)  // lines 299-307
    case 22 => Shape(Parcel, International, IntParcelCorOwnPackaging, Some(IntExtraCover), None, 5000, None)  // lines 308-316
    case 23 => Shape(Letter, Domestic, AusLetterRegularSmall, Some(AusServiceOptionStandard), None, 0, Some(LetterLimits(240, 130, 5, 250)))  // lines 318-332
    case 24 => Shape(Letter, Domestic, AusLetterPrioritySmall, Some(AusServiceOptionStandard), None, 0, Some(LetterLimits(240, 130, 5, 250)))  // lines 333-347
    case 25 => Shape(Letter, Domestic, AusLetterRegularLarge, Some(AusServiceOptionStandard), None, 0, Some(LetterLimits(360, 260, 20, 500)))  // lines 348-362
    case 26 => Shape(Letter, Domestic, AusLetterPriorityLarge500, Some(AusServiceOptionStandard), None, 0, Some(LetterLimits(360, 260, 20, 500)))  // lines 363-377
    case 27 => Shape(Letter, Domestic, AusLetterRegularSmall, Some(AusServiceOptionRegisteredPost), None, 0, Some(LetterLimits(240, 130, 20, 500)))  // lines 378-392
    case 28 => Shape(Letter, Domestic, AusLetterRegularSmall, Some(AusServiceOptionRegisteredPost), Some(AusServiceOptionDeliveryConfirmation), 0, Some(LetterLimits(240, 130, 20, 500)))  // lines 393-407
    case 29 => Shape(Letter, Domestic, AusLetterRegularSmall, Some(AusServiceOptionRegisteredPost), Some(AusServiceOptionPersonToPerson), 0, Some(LetterLimits(240, 130, 20, 500)))  // lines 408-422
    case 30 => Shape(Letter, Domestic, AusLetterRegularLarge, Some(AusServiceOptionRegisteredPost), None, 0, Some(LetterLimits(360, 260, 20, 500)))  // lines 444-458
    case 31 => Shape(Letter, Domestic, AusLetterRegularLarge, Some(AusServiceOptionRegisteredPost), Some(AusServiceOptionDeliveryConfirmation), 0, Some(LetterLimits(360, 260, 20, 500)))  // lines 459-473
    case 32 => Shape(Letter, Domestic, AusLetterRegularLarge, Some(AusServiceOptionRegisteredPost), Some(AusServiceOptionPersonToPerson), 0, Some(LetterLimits(360, 260, 20, 500)))  // lines 474-488
    case 33 => Shape(Letter, Domestic, AusLetterExpressSmall, Some(AusServiceOptionStandard), None, 0, Some(LetterLimits(220, 110, 20, 500)))  // lines 510-524
    case 34 => Shape(Letter, Domestic, AusLetterExpressSmall, Some(AusServiceOptionSignatureOnDelivery), None, 0, Some(LetterLimits(220, 110, 20, 500)))  // lines 525-539
    case 35 => Shape(Letter, Domestic, AusLetterExpressMedium, Some(AusServiceOptionStandard), None, 0, Some(LetterLimits(229, 162, 20, 500)))  // lines 540-554
    case 36 => Shape(Letter, Domestic, AusLetterExpressMedium, Some(AusServiceOptionSignatureOnDelivery), None, 0, Some(LetterLimits(229, 162, 20, 500)))  // lines 555-569
    case 37 => Shape(Letter, Domestic, AusLetterExpressLarge, Some(AusServiceOptionStandard), None, 0, Some(LetterLimits(353, 250, 20, 500)))  // lines 570-584
    case 38 => Shape(Letter, Domestic, AusLetterExpressLarge, Some(AusServiceOptionSignatureOnDelivery), None, 0, Some(LetterLimits(353, 250, 20, 500)))  // lines 585-599
    case 39 => Shape(Letter, International, IntLetterAirOwnPackagingLight, None, None, 0, Some(LetterLimits(360, 260, 20, 50)))  // lines 601-615
    case 40 => Shape(Letter, International, IntLetterAirOwnPackagingMedium, None, None, 0, Some(LetterLimits(360, 260, 20, 250)))  // lines 616-630
    case 41 => Shape(Letter, International, IntLetterAirOwnPackagingHeavy, None, None, 0, Some(LetterLimits(360, 260, 20, 500)))  // lines 631-645
    case 42 => Shape(Letter, International, IntLetterRegSmallEnvelope, None, None, 0, Some(LetterLimits(240, 130, 5, 500)))  // lines 646-660
    case 43 => Shape(Letter, International, IntLetterRegLargeEnvelope, None, None, 0, Some(LetterLimits(265, 250, 20, 500)))  // lines 661-675
    case 44 => Shape(Letter, International, IntLetterExpOwnPackaging, None, None, 0, Some(LetterLimits(360, 260, 20, 500)))  // lines 676-690
    case 45 => Shape(Letter, International, IntLetterExpOwnPackaging, Some(IntExtraCover), None, 5000, Some(LetterLimits(360, 260, 20, 500)))  // lines 691-705
    case 46 => Shape(Letter, International, IntLetterCorOwnPackaging, None, None, 0, Some(LetterLimits(360, 260, 20, 500)))  // lines 706-720
    case _ => Shape(Letter, International, IntLetterCorOwnPackaging, Some(IntExtraCover), None, 5000, Some(LetterLimits(360, 260, 20, 500)))  // lines 721-735
  }

  function ServiceAt(i: nat): (s: DefaultService)
    requires i < ServiceCount
    ensures s.key == KeyAt(i) && s.description == DescriptionAt(i)
    ensures s.serviceType == ShapeAt(i).serviceType && s.destination == ShapeAt(i).destination
    ensures s.serviceCode == ShapeAt(i).serviceCode && s.extraCover == ShapeAt(i).extraCover
    ensures s.optionCode == ShapeAt(i).optionCode && s.subOptCode == ShapeAt(i).subOptCode
    ensures s.maxDimensions == ShapeAt(i).maxDimensions
  {
    var x := ShapeAt(i);
    DefaultService(KeyAt(i), x.serviceType, x.destination, DescriptionAt(i), x.serviceCode,
      x.optionCode, x.subOptCode, x.extraCover, x.maxDimensions)
  }

  function Services(): (s: seq<DefaultService>)
    ensures |s| == ServiceCount
    ensures forall i :: 0 <= i < ServiceCount ==> s[i] == ServiceAt(i)
  {
    seq(ServiceCount, i requires 0 <= i < ServiceCount => ServiceAt(i))
  }

  function OptionString(o: Option<ServiceOption>): string
  {
    match o
    case None => ""
    case Some(x) => ServiceOptionName(x)
  }

  /** One entry as the PHP array `services()` holds it. */
  function EntryArray(s: DefaultService): (a: OMap<Value>)
  {
    [ ("type", Str(ServiceTypeName(s.serviceType))),
      ("destination", Str(DestinationName(s.destination))),
      ("description", Str(s.description)),
      ("service_code", Str(ServiceCodeName(s.serviceCode))),
      ("option_code", Str(OptionString(s.optionCode))),
      ("sub_opt_code", Str(OptionString(s.subOptCode))),
      ("extra_cover", Int(s.extraCover)) ]
    + match s.maxDimensions
      case None => []
      case Some(m) =>
        [("max_dimensions", Arr([ ("length", Int(m.length)), ("width", Int(m.width)),
                                  ("thickness", Int(m.thickness)), ("weight", Int(m.weight)) ]))]
  }

  /** `services()`: the catalogue as the PHP array keyed by entry key. */
  function ServicesArray(): (a: OMap<Value>)
    ensures |a| == ServiceCount
    ensures forall i :: 0 <= i < ServiceCount ==> a[i] == (ServiceAt(i).key, Arr(EntryArray(ServiceAt(i))))
  {
    seq(ServiceCount, i requires 0 <= i < ServiceCount => (ServiceAt(i).key, Arr(EntryArray(ServiceAt(i)))))
  }

  /** No two entries share a key, so the PHP array loses none of them. */
  lemma ServiceKeysDistinct()
    ensures forall i, j :: 0 <= i < j < ServiceCount ==> ServiceAt(i).key != ServiceAt(j).key
    ensures DistinctKeys(ServicesArray())
  {
    KeysDistinct0To10();
    KeysDistinct10To20();
    KeysDistinct20To30();
    KeysDistinct30To40();
    KeysDistinct40To48();
  }

  lemma KeysDistinct0To10()
    ensures forall i, j | 0 <= i < 10 && i < j < ServiceCount :: KeyAt(i) != KeyAt(j)
  {
  }

  lemma KeysDistinct10To20()
    ensures forall i, j | 10 <= i < 20 && i < j < ServiceCount :: KeyAt(i) != KeyAt(j)
  {
  }

  lemma KeysDistinct20To30()
    ensures forall i, j | 20 <= i < 30 && i < j < ServiceCount :: KeyAt(i) != KeyAt(j)
  {
  }

  lemma KeysDistinct30To40()
    ensures forall i, j | 30 <= i < 40 && i < j < ServiceCount :: KeyAt(i) != KeyAt(j)
  {
  }

  lemma KeysDistinct40To48()
    ensures forall i, j | 40 <= i < 48 && i < j < ServiceCount :: KeyAt(i) != KeyAt(j)
  {
  }

  /** The four groups of the catalogue, in order, by index range. */
  predicate InGroup(x: Shape, t: ServiceType, d: Destination)
  {
    x.serviceType == t && x.destination == d
  }

  /** The test `getServices($type, $destination)` applies to each entry. */
  function Group(t: ServiceType, d: Destination): DefaultService -> bool
  {
    (s: DefaultService) => s.serviceType == t && s.destination == d
  }

  lemma Groups()
    ensures forall i :: 0 <= i < ServiceCount ==>
      && (InGroup(ShapeAt(i), Parcel, Domestic) <==> i < 10)
      && (InGroup(ShapeAt(i), Parcel, International) <==> 10 <= i < 23)
      && (InGroup(ShapeAt(i), Letter, Domestic) <==> 23 <= i < 39)
      && (InGroup(ShapeAt(i), Letter, International) <==> 39 <= i)
  {
  }

  /**
   * The catalogue holds 10 domestic parcel, 13 international parcel,
   * 16 domestic letter and 9 international letter services, in that order.
   */
  lemma GroupOfEntry(t: ServiceType, d: Destination)
    ensures forall i :: 0 <= i < ServiceCount ==> (Group(t, d)(Services()[i]) <==> InGroup(ShapeAt(i), t, d))
  {
  }

  lemma {:induction false} GroupSizes()
    ensures Filter(Services(), Group(Parcel, Domestic)) == Services()[0..10]
    ensures Filter(Services(), Group(Parcel, International)) == Services()[10..23]
    ensures Filter(Services(), Group(Letter, Domestic)) == Services()[23..39]
    ensures Filter(Services(), Group(Letter, International)) == Services()[39..48]
  {
    GroupIsSlice(Parcel, Domestic, 0, 10);
    GroupIsSlice(Parcel, International, 10, 23);
    GroupIsSlice(Letter, Domestic, 23, 39);
    GroupIsSlice(Letter, International, 39, 48);
  }

  lemma {:induction false} GroupIsSlice(t: ServiceType, d: Destination, lo: nat, hi: nat)
    requires (t, d, lo, hi) in {(Parcel, Domestic, 0, 10), (Parcel, International, 10, 23), (Letter, Domestic, 23, 39), (Letter, International, 39, 48)}
    ensures Filter(Services(), Group(t, d)) == Services()[lo..hi]
  {
    Groups();
    GroupOfEntry(t, d);
    FilterRange(Services(), Group(t, d), lo, hi);
  }

  /** Letters, and only letters, carry envelope limits, and those stay within 360 mm and 500 g. */
  lemma LetterLimitsShape()
    ensures forall i :: 0 <= i < ServiceCount ==>
      && (ShapeAt(i).maxDimensions.Some? <==> ShapeAt(i).serviceType == Letter)
      && (ShapeAt(i).maxDimensions.Some? ==>
            var m := ShapeAt(i).maxDimensions.value;
            m.width <= m.length <= 360 && m.thickness in {5, 20} && 50 <= m.weight <= 500)
  {
  }

  /** Extra cover is 0, 300 or 5000, and non-zero exactly for the entries that ask for extra cover. */
  lemma ExtraCoverShape()
    ensures forall i :: 0 <= i < ServiceCount ==>
      && ShapeAt(i).extraCover in {0, 300, 5000}
      && (ShapeAt(i).extraCover > 0 <==>
            ShapeAt(i).subOptCode == Some(AusServiceOptionExtraCover) || ShapeAt(i).optionCode == Some(IntExtraCover))
  {
  }

  /** International entries use only international options; domestic ones only domestic options. */
  lemma OptionsMatchDestination()
    ensures forall i :: 0 <= i < ServiceCount ==>
      && (ShapeAt(i).destination == International ==>
            ShapeAt(i).subOptCode == None && ShapeAt(i).optionCode in {None, Some(IntExtraCover), Some(IntSignatureOnDelivery)})
      && (ShapeAt(i).destination == Domestic ==>
            ShapeAt(i).optionCode.Some? && ShapeAt(i).optionCode.value !in {IntTracking, IntExtraCover, IntSmsTrackAdvice, IntSignatureOnDelivery})
  {
  }

  /** Domestic entries use the carrier's `AUS_` service codes and international entries its `INT_` codes. */
  lemma CodesMatchDestination()
    ensures forall i :: 0 <= i < ServiceCount ==>
      && (StartsWith(ServiceCodeName(ShapeAt(i).serviceCode), "AUS_") <==> ShapeAt(i).destination == Domestic)
      && (StartsWith(ServiceCodeName(ShapeAt(i).serviceCode), "INT_") <==> ShapeAt(i).destination == International)
  {
    CodeIndexMatchesDestination();
    forall i | 0 <= i < ServiceCount
      ensures && (StartsWith(ServiceCodeName(ShapeAt(i).serviceCode), "AUS_") <==> ShapeAt(i).destination == Domestic)
              && (StartsWith(ServiceCodeName(ShapeAt(i).serviceCode), "INT_") <==> ShapeAt(i).destination == International)
    {
      CodePrefix(ShapeAt(i).serviceCode);
    }
  }

  lemma CodeIndexMatchesDestination()
    ensures forall i :: 0 <= i < ServiceCount ==>
      (ServiceCodeIndex(ShapeAt(i).serviceCode) < 17 <==> ShapeAt(i).destination == Domestic)
  {
  }

  /**
   * The thirteen entries of the legacy catalogue are entries of this one,
   * with the same key, type, destination, code, options and extra cover.
   */
  lemma LegacyCatalogueIsContained()
    ensures forall i :: 0 <= i < ServiceDefinitions.ServiceCount ==>
      var legacy := ServiceDefinitions.ServiceAt(i);
      var j := if i < 10 then i else i + 3;
      && legacy.key == KeyAt(j) && legacy.serviceType == ShapeAt(j).serviceType
      && legacy.destination == ShapeAt(j).destination && legacy.serviceCode == ShapeAt(j).serviceCode
      && legacy.optionCode == ShapeAt(j).optionCode && legacy.subOptCode == ShapeAt(j).subOptCode
      && legacy.extraCover == ShapeAt(j).extraCover
  {
    LegacyContained0To4();
    LegacyContained4To7();
    LegacyContained7To10();
    LegacyContained10To12();
    LegacyContained12To13();
  }

  lemma LegacyContained0To4()
    ensures forall i :: 0 <= i < 4 ==>
      var legacy := ServiceDefinitions.ServiceAt(i);
      var j := if i < 10 then i else i + 3;
      && legacy.key == KeyAt(j) && legacy.serviceType == ShapeAt(j).serviceType
      && legacy.destination == ShapeAt(j).destination && legacy.serviceCode == ShapeAt(j).serviceCode
      && legacy.optionCode == ShapeAt(j).optionCode && legacy.subOptCode == ShapeAt(j).subOptCode
      && legacy.extraCover == ShapeAt(j).extraCover
  {
  }

  lemma LegacyContained4To7()
    ensures forall i :: 4 <= i < 7 ==>
      var legacy := ServiceDefinitions.ServiceAt(i);
      var j := if i < 10 then i else i + 3;
      && legacy.key == KeyAt(j) && legacy.serviceType == ShapeAt(j).serviceType
      && legacy.destination == ShapeAt(j).destination && legacy.serviceCode == ShapeAt(j).serviceCode
      && legacy.optionCode == ShapeAt(j).optionCode && legacy.subOptCode == ShapeAt(j).subOptCode
      && legacy.extraCover == ShapeAt(j).extraCover
  {
  }

  lemma LegacyContained7To10()
    ensures forall i :: 7 <= i < 10 ==>
      var legacy := ServiceDefinitions.ServiceAt(i);
      var j := if i < 10 then i else i + 3;
      && legacy.key == KeyAt(j) && legacy.serviceType == ShapeAt(j).serviceType
      && legacy.destination == ShapeAt(j).destination && legacy.serviceCode == ShapeAt(j).serviceCode
      && legacy.optionCode == ShapeAt(j).optionCode && legacy.subOptCode == ShapeAt(j).subOptCode
      && legacy.extraCover == ShapeAt(j).extraCover
  {
  }

  lemma LegacyContained10To12()
    ensures forall i :: 10 <= i < 12 ==>
      var legacy := ServiceDefinitions.ServiceAt(i);
      var j := if i < 10 then i else i + 3;
      && legacy.key == KeyAt(j) && legacy.serviceType == ShapeAt(j).serviceType
      && legacy.destination == ShapeAt(j).destination && legacy.serviceCode == ShapeAt(j).serviceCode
      && legacy.optionCode == ShapeAt(j).optionCode && legacy.subOptCode == ShapeAt(j).subOptCode
      && legacy.extraCover == ShapeAt(j).extraCover
  {
  }

  lemma LegacyContained12To13()
    ensures forall i :: 12 <= i < 13 ==>
      var legacy := ServiceDefinitions.ServiceAt(i);
      var j := if i < 10 then i else i + 3;
      && legacy.key == KeyAt(j) && legacy.serviceType == ShapeAt(j).serviceType
      && legacy.destination == ShapeAt(j).destination && legacy.serviceCode == ShapeAt(j).serviceCode
      && legacy.optionCode == ShapeAt(j).optionCode && legacy.subOptCode == ShapeAt(j).subOptCode
      && legacy.extraCover == ShapeAt(j).extraCover
  {
  }
}
