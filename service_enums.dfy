/**
 * The enumerations the service definitions are validated against: the
 * carrier's service codes and service options, the two destinations and the
 * two package types. Each is a set of string constants; `assertExists`
 * accepts exactly the strings of one of its constants (a strict `in_array`
 * over the constants) and throws \InvalidArgumentException otherwise.
 */
module ServiceEnums {
  import opened Wrappers
  import opened PhpValues

  /** No two constants of a list share a string. */
  predicate NamesDistinct<T>(all: seq<T>, name: T -> string)
  {
    forall i, j :: 0 <= i < j < |all| ==> name(all[i]) != name(all[j])
  }

  /** The first constant of `all` whose string is `s`. */
  function FindByName<T>(all: seq<T>, name: T -> string, s: string): (r: Option<T>)
    requires NamesDistinct(all, name)
    ensures r.Some? ==> r.value in all && name(r.value) == s
    ensures r.None? ==> forall i :: 0 <= i < |all| ==> name(all[i]) != s
    ensures forall i :: 0 <= i < |all| && name(all[i]) == s ==> r == Some(all[i])
  {
    if all == [] then None
    else if name(all[0]) == s then Some(all[0])
    else
      assert forall i :: 1 <= i < |all| ==> all[i] == all[1..][i - 1];
      FindByName(all[1..], name, s)
  }

  datatype Destination = Domestic | International

  function DestinationName(d: Destination): string
  {
    match d
    case Domestic => "domestic"
    case International => "international"
  }

  function ParseDestination(s: string): (r: Option<Destination>)
    ensures r.Some? ==> DestinationName(r.value) == s
    ensures r.None? ==> forall d :: DestinationName(d) != s
  {
    if s == "domestic" then Some(Domestic)
    else if s == "international" then Some(International)
    else None
  }

  datatype ServiceType = Parcel | Letter

  function ServiceTypeName(t: ServiceType): string
  {
    match t
    case Parcel => "parcel"
    case Letter => "letter"
  }

  function ParseServiceType(s: string): (r: Option<ServiceType>)
    ensures r.Some? ==> ServiceTypeName(r.value) == s
    ensures r.None? ==> forall t :: ServiceTypeName(t) != s
  {
    if s == "parcel" then Some(Parcel)
    else if s == "letter" then Some(Letter)
    else None
  }

  /** The carrier's service codes (`ServiceCodes`). */
  datatype ServiceCode =
    | AusLetterRegularSmall
    | AusLetterRegularLarge
    | AusLetterPrioritySmall
    | AusLetterPriorityLarge500
    | AusLetterExpressSmall
    | AusLetterExpressMedium
    | AusLetterExpressLarge
    | AusParcelRegular
    | AusParcelRegularSatchel500G
    | AusParcelRegularSatchel3KG
    | AusParcelRegularSatchel5KG
    | AusParcelExpress
    | AusParcelExpressSatchel500G
    | AusParcelExpressSatchel3KG
    | AusParcelExpressSatchel5KG
    | AusParcelCourier
    | AusParcelCourierSatchelMedium
    | IntLetterAirOwnPackagingLight
    | IntLetterAirOwnPackagingMedium
    | IntLetterAirOwnPackagingHeavy
    | IntLetterCorOwnPackaging
    | IntLetterExpOwnPackaging
    | IntLetterRegSmallEnvelope
    | IntLetterRegLargeEnvelope
    | IntParcelSeaOwnPackaging
    | IntParcelCorOwnPackaging
    | IntParcelStdOwnPackaging
    | IntParcelExpOwnPackaging
    | IntParcelAirOwnPackaging

  function ServiceCodeName(x: ServiceCode): string
  {
    match x
    case AusLetterRegularSmall => "AUS_LETTER_REGULAR_SMALL"
    case AusLetterRegularLarge => "AUS_LETTER_REGULAR_LARGE"
    case AusLetterPrioritySmall => "AUS_LETTER_PRIORITY_SMALL"
    case AusLetterPriorityLarge500 => "AUS_LETTER_PRIORITY_LARGE_500"
    case AusLetterExpressSmall => "AUS_LETTER_EXPRESS_SMALL"
    case AusLetterExpressMedium => "AUS_LETTER_EXPRESS_MEDIUM"
    case AusLetterExpressLarge => "AUS_LETTER_EXPRESS_LARGE"
    case AusParcelRegular => "AUS_PARCEL_REGULAR"
    case AusParcelRegularSatchel500G => "AUS_PARCEL_REGULAR_SATCHEL_500G"
    case AusParcelRegularSatchel3KG => "AUS_PARCEL_REGULAR_SATCHEL_3KG"
    case AusParcelRegularSatchel5KG => "AUS_PARCEL_REGULAR_SATCHEL_5KG"
    case AusParcelExpress => "AUS_PARCEL_EXPRESS"
    case AusParcelExpressSatchel500G => "AUS_PARCEL_EXPRESS_SATCHEL_500G"
    case AusParcelExpressSatchel3KG => "AUS_PARCEL_EXPRESS_SATCHEL_3KG"
    case AusParcelExpressSatchel5KG => "AUS_PARCEL_EXPRESS_SATCHEL_5KG"
    case AusParcelCourier => "AUS_PARCEL_COURIER"
    case AusParcelCourierSatchelMedium => "AUS_PARCEL_COURIER_SATCHEL_MEDIUM"
    case IntLetterAirOwnPackagingLight => "INT_LETTER_AIR_OWN_PACKAGING_LIGHT"
    case IntLetterAirOwnPackagingMedium => "INT_LETTER_AIR_OWN_PACKAGING_MEDIUM"
    case IntLetterAirOwnPackagingHeavy => "INT_LETTER_AIR_OWN_PACKAGING_HEAVY"
    case IntLetterCorOwnPackaging => "INT_LETTER_COR_OWN_PACKAGING"
    case IntLetterExpOwnPackaging => "INT_LETTER_EXP_OWN_PACKAGING"
    case IntLetterRegSmallEnvelope => "INT_LETTER_REG_SMALL_ENVELOPE"
    case IntLetterRegLargeEnvelope => "INT_LETTER_REG_LARGE_ENVELOPE"
    case IntParcelSeaOwnPackaging => "INT_PARCEL_SEA_OWN_PACKAGING"
    case IntParcelCorOwnPackaging => "INT_PARCEL_COR_OWN_PACKAGING"
    case IntParcelStdOwnPackaging => "INT_PARCEL_STD_OWN_PACKAGING"
    case IntParcelExpOwnPackaging => "INT_PARCEL_EXP_OWN_PACKAGING"
    case IntParcelAirOwnPackaging => "INT_PARCEL_AIR_OWN_PACKAGING"
  }

  function ServiceCodeAt(i: nat): ServiceCode
    requires i < 29
  {
    match i
    case 0 => AusLetterRegularSmall
    case 1 => AusLetterRegularLarge
    case 2 => AusLetterPrioritySmall
    case 3 => AusLetterPriorityLarge500
    case 4 => AusLetterExpressSmall
    case 5 => AusLetterExpressMedium
    case 6 => AusLetterExpressLarge
    case 7 => AusParcelRegular
    case 8 => AusParcelRegularSatchel500G
    case 9 => AusParcelRegularSatchel3KG
    case 10 => AusParcelRegularSatchel5KG
    case 11 => AusParcelExpress
    case 12 => AusParcelExpressSatchel500G
    case 13 => AusParcelExpressSatchel3KG
    case 14 => AusParcelExpressSatchel5KG
    case 15 => AusParcelCourier
    case 16 => AusParcelCourierSatchelMedium
    case 17 => IntLetterAirOwnPackagingLight
    case 18 => IntLetterAirOwnPackagingMedium
    case 19 => IntLetterAirOwnPackagingHeavy
    case 20 => IntLetterCorOwnPackaging
    case 21 => IntLetterExpOwnPackaging
    case 22 => IntLetterRegSmallEnvelope
    case 23 => IntLetterRegLargeEnvelope
    case 24 => IntParcelSeaOwnPackaging
    case 25 => IntParcelCorOwnPackaging
    case 26 => IntParcelStdOwnPackaging
    case 27 => IntParcelExpOwnPackaging
    case _ => IntParcelAirOwnPackaging
  }

  /** The constants in declaration order, as `getAll()` lists them. */
  function AllServiceCodes(): (all: seq<ServiceCode>)
    ensures |all| == 29
    ensures forall i :: 0 <= i < 29 ==> all[i] == ServiceCodeAt(i)
  {
    seq(29, i requires 0 <= i < 29 => ServiceCodeAt(i))
  }

  function ServiceCodeIndex(x: ServiceCode): (i: nat)
    ensures i < |AllServiceCodes()| && ServiceCodeAt(i) == x
  {
    match x
    case AusLetterRegularSmall => 0
    case AusLetterRegularLarge => 1
    case AusLetterPrioritySmall => 2
    case AusLetterPriorityLarge500 => 3
    case AusLetterExpressSmall => 4
    case AusLetterExpressMedium => 5
    case AusLetterExpressLarge => 6
    case AusParcelRegular => 7
    case AusParcelRegularSatchel500G => 8
    case AusParcelRegularSatchel3KG => 9
    case AusParcelRegularSatchel5KG => 10
    case AusParcelExpress => 11
    case AusParcelExpressSatchel500G => 12
    case AusParcelExpressSatchel3KG => 13
    case AusParcelExpressSatchel5KG => 14
    case AusParcelCourier => 15
    case AusParcelCourierSatchelMedium => 16
    case IntLetterAirOwnPackagingLight => 17
    case IntLetterAirOwnPackagingMedium => 18
    case IntLetterAirOwnPackagingHeavy => 19
    case IntLetterCorOwnPackaging => 20
    case IntLetterExpOwnPackaging => 21
    case IntLetterRegSmallEnvelope => 22
    case IntLetterRegLargeEnvelope => 23
    case IntParcelSeaOwnPackaging => 24
    case IntParcelCorOwnPackaging => 25
    case IntParcelStdOwnPackaging => 26
    case IntParcelExpOwnPackaging => 27
    case IntParcelAirOwnPackaging => 28
  }

  lemma ServiceCodeNamesDistinct()
    ensures NamesDistinct(AllServiceCodes(), ServiceCodeName)
  {
    ServiceCodeNamesDistinct0To3();
    ServiceCodeNamesDistinct3To6();
    ServiceCodeNamesDistinct6To9();
    ServiceCodeNamesDistinct9To12();
    ServiceCodeNamesDistinct12To15();
    ServiceCodeNamesDistinct15To18();
    ServiceCodeNamesDistinct18To21();
    ServiceCodeNamesDistinct21To24();
    ServiceCodeNamesDistinct24To27();
    ServiceCodeNamesDistinct27To29();
  }

  lemma ServiceCodeNamesDistinct0To3()
    ensures forall i, j | 0 <= i < 3 && i < j < 29 :: ServiceCodeName(ServiceCodeAt(i)) != ServiceCodeName(ServiceCodeAt(j))
  {
  }

  lemma ServiceCodeNamesDistinct3To6()
    ensures forall i, j | 3 <= i < 6 && i < j < 29 :: ServiceCodeName(ServiceCodeAt(i)) != ServiceCodeName(ServiceCodeAt(j))
  {
  }

  lemma ServiceCodeNamesDistinct6To9()
    ensures forall i, j | 6 <= i < 9 && i < j < 29 :: ServiceCodeName(ServiceCodeAt(i)) != ServiceCodeName(ServiceCodeAt(j))
  {
  }

  lemma ServiceCodeNamesDistinct9To12()
    ensures forall i, j | 9 <= i < 12 && i < j < 29 :: ServiceCodeName(ServiceCodeAt(i)) != ServiceCodeName(ServiceCodeAt(j))
  {
  }

  lemma ServiceCodeNamesDistinct12To15()
    ensures forall i, j | 12 <= i < 15 && i < j < 29 :: ServiceCodeName(ServiceCodeAt(i)) != ServiceCodeName(ServiceCodeAt(j))
  {
  }

  lemma ServiceCodeNamesDistinct15To18()
    ensures forall i, j | 15 <= i < 18 && i < j < 29 :: ServiceCodeName(ServiceCodeAt(i)) != ServiceCodeName(ServiceCodeAt(j))
  {
  }

  lemma ServiceCodeNamesDistinct18To21()
    ensures forall i, j | 18 <= i < 21 && i < j < 29 :: ServiceCodeName(ServiceCodeAt(i)) != ServiceCodeName(ServiceCodeAt(j))
  {
  }

  lemma ServiceCodeNamesDistinct21To24()
    ensures forall i, j | 21 <= i < 24 && i < j < 29 :: ServiceCodeName(ServiceCodeAt(i)) != ServiceCodeName(ServiceCodeAt(j))
  {
  }

  lemma ServiceCodeNamesDistinct24To27()
    ensures forall i, j | 24 <= i < 27 && i < j < 29 :: ServiceCodeName(ServiceCodeAt(i)) != ServiceCodeName(ServiceCodeAt(j))
  {
  }

  lemma ServiceCodeNamesDistinct27To29()
    ensures forall i, j | 27 <= i < 29 && i < j < 29 :: ServiceCodeName(ServiceCodeAt(i)) != ServiceCodeName(ServiceCodeAt(j))
  {
  }

  /** The first 17 codes are the domestic `AUS_` codes, the other 12 the international `INT_` codes. */
  lemma CodePrefix(c: ServiceCode)
    ensures StartsWith(ServiceCodeName(c), "AUS_") <==> ServiceCodeIndex(c) < 17
    ensures StartsWith(ServiceCodeName(c), "INT_") <==> ServiceCodeIndex(c) >= 17
  {
    CodeHeads0To6();
    CodeHeads6To12();
    CodeHeads12To17();
    CodeHeads17To20();
    CodeHeads20To23();
    CodeHeads23To26();
    CodeHeads26To29();
    assert "AUS_"[0] != "INT_"[0];
  }

  lemma CodeHeads0To6()
    ensures StartsWith(ServiceCodeName(AusLetterRegularSmall), "AUS_")
    ensures StartsWith(ServiceCodeName(AusLetterRegularLarge), "AUS_")
    ensures StartsWith(ServiceCodeName(AusLetterPrioritySmall), "AUS_")
    ensures StartsWith(ServiceCodeName(AusLetterPriorityLarge500), "AUS_")
    ensures StartsWith(ServiceCodeName(AusLetterExpressSmall), "AUS_")
    ensures StartsWith(ServiceCodeName(AusLetterExpressMedium), "AUS_")
  {
  }

  lemma CodeHeads6To12()
    ensures StartsWith(ServiceCodeName(AusLetterExpressLarge), "AUS_")
    ensures StartsWith(ServiceCodeName(AusParcelRegular), "AUS_")
    ensures StartsWith(ServiceCodeName(AusParcelRegularSatchel500G), "AUS_")
    ensures StartsWith(ServiceCodeName(AusParcelRegularSatchel3KG), "AUS_")
    ensures StartsWith(ServiceCodeName(AusParcelRegularSatchel5KG), "AUS_")
    ensures StartsWith(ServiceCodeName(AusParcelExpress), "AUS_")
  {
  }

  lemma CodeHeads12To17()
    ensures StartsWith(ServiceCodeName(AusParcelExpressSatchel500G), "AUS_")
    ensures StartsWith(ServiceCodeName(AusParcelExpressSatchel3KG), "AUS_")
    ensures StartsWith(ServiceCodeName(AusParcelExpressSatchel5KG), "AUS_")
    ensures StartsWith(ServiceCodeName(AusParcelCourier), "AUS_")
    ensures StartsWith(ServiceCodeName(AusParcelCourierSatchelMedium), "AUS_")
  {
  }

  lemma CodeHeads17To20()
    ensures StartsWith(ServiceCodeName(IntLetterAirOwnPackagingLight), "INT_")
    ensures StartsWith(ServiceCodeName(IntLetterAirOwnPackagingMedium), "INT_")
    ensures StartsWith(ServiceCodeName(IntLetterAirOwnPackagingHeavy), "INT_")
  {
  }

  lemma CodeHeads20To23()
    ensures StartsWith(ServiceCodeName(IntLetterCorOwnPackaging), "INT_")
    ensures StartsWith(ServiceCodeName(IntLetterExpOwnPackaging), "INT_")
    ensures StartsWith(ServiceCodeName(IntLetterRegSmallEnvelope), "INT_")
  {
  }

  lemma CodeHeads23To26()
    ensures StartsWith(ServiceCodeName(IntLetterRegLargeEnvelope), "INT_")
    ensures StartsWith(ServiceCodeName(IntParcelSeaOwnPackaging), "INT_")
    ensures StartsWith(ServiceCodeName(IntParcelCorOwnPackaging), "INT_")
  {
  }

  lemma CodeHeads26To29()
    ensures StartsWith(ServiceCodeName(IntParcelStdOwnPackaging), "INT_")
    ensures StartsWith(ServiceCodeName(IntParcelExpOwnPackaging), "INT_")
    ensures StartsWith(ServiceCodeName(IntParcelAirOwnPackaging), "INT_")
  {
  }

  /** `assertExists` on a string: the constant whose value it is. */
  function ParseServiceCode(s: string): (r: Option<ServiceCode>)
    ensures r.Some? ==> ServiceCodeName(r.value) == s
  {
    ServiceCodeNamesDistinct();
    FindByName(AllServiceCodes(), ServiceCodeName, s)
  }

  /** The carrier's service options and sub-options (`ServiceOptions`). */
  datatype ServiceOption =
    | AusServiceOptionStandard
    | AusServiceOptionExtraCover
    | AusServiceOptionSignatureOnDelivery
    | AusServiceOptionDeliveryConfirmation
    | AusServiceOptionRegisteredPost
    | AusServiceOptionPersonToPerson
    | AusServiceOptionCodPostageFees
    | AusServiceOptionCodMoneyCollection
    | IntTracking
    | IntExtraCover
    | IntSmsTrackAdvice
    | IntSignatureOnDelivery

  function ServiceOptionName(x: ServiceOption): string
  {
    match x
    case AusServiceOptionStandard => "AUS_SERVICE_OPTION_STANDARD"
    case AusServiceOptionExtraCover => "AUS_SERVICE_OPTION_EXTRA_COVER"
    case AusServiceOptionSignatureOnDelivery => "AUS_SERVICE_OPTION_SIGNATURE_ON_DELIVERY"
    case AusServiceOptionDeliveryConfirmation => "AUS_SERVICE_OPTION_DELIVERY_CONFIRMATION"
    case AusServiceOptionRegisteredPost => "AUS_SERVICE_OPTION_REGISTERED_POST"
    case AusServiceOptionPersonToPerson => "AUS_SERVICE_OPTION_PERSON_TO_PERSON"
    case AusServiceOptionCodPostageFees => "AUS_SERVICE_OPTION_COD_POSTAGE_FEES"
    case AusServiceOptionCodMoneyCollection => "AUS_SERVICE_OPTION_COD_MONEY_COLLECTION"
    case IntTracking => "INT_TRACKING"
    case IntExtraCover => "INT_EXTRA_COVER"
    case IntSmsTrackAdvice => "INT_SMS_TRACK_ADVICE"
    case IntSignatureOnDelivery => "INT_SIGNATURE_ON_DELIVERY"
  }

  function ServiceOptionAt(i: nat): ServiceOption
    requires i < 12
  {
    match i
    case 0 => AusServiceOptionStandard
    case 1 => AusServiceOptionExtraCover
    case 2 => AusServiceOptionSignatureOnDelivery
    case 3 => AusServiceOptionDeliveryConfirmation
    case 4 => AusServiceOptionRegisteredPost
    case 5 => AusServiceOptionPersonToPerson
    case 6 => AusServiceOptionCodPostageFees
    case 7 => AusServiceOptionCodMoneyCollection
    case 8 => IntTracking
    case 9 => IntExtraCover
    case 10 => IntSmsTrackAdvice
    case _ => IntSignatureOnDelivery
  }

  /** The constants in declaration order, as `getAll()` lists them. */
  function AllServiceOptions(): (all: seq<ServiceOption>)
    ensures |all| == 12
    ensures forall i :: 0 <= i < 12 ==> all[i] == ServiceOptionAt(i)
  {
    seq(12, i requires 0 <= i < 12 => ServiceOptionAt(i))
  }

  function ServiceOptionIndex(x: ServiceOption): (i: nat)
    ensures i < |AllServiceOptions()| && ServiceOptionAt(i) == x
  {
    match x
    case AusServiceOptionStandard => 0
    case AusServiceOptionExtraCover => 1
    case AusServiceOptionSignatureOnDelivery => 2
    case AusServiceOptionDeliveryConfirmation => 3
    case AusServiceOptionRegisteredPost => 4
    case AusServiceOptionPersonToPerson => 5
    case AusServiceOptionCodPostageFees => 6
    case AusServiceOptionCodMoneyCollection => 7
    case IntTracking => 8
    case IntExtraCover => 9
    case IntSmsTrackAdvice => 10
    case IntSignatureOnDelivery => 11
  }

  lemma ServiceOptionNamesDistinct()
    ensures NamesDistinct(AllServiceOptions(), ServiceOptionName)
  {
    assert forall i, j | 0 <= i < j < 12 :: ServiceOptionName(ServiceOptionAt(i)) != ServiceOptionName(ServiceOptionAt(j));
  }

  /** `assertExists` on a string: the constant whose value it is. */
  function ParseServiceOption(s: string): (r: Option<ServiceOption>)
    ensures r.Some? ==> ServiceOptionName(r.value) == s
  {
    ServiceOptionNamesDistinct();
    FindByName(AllServiceOptions(), ServiceOptionName, s)
  }

  /** Every constant's string is accepted, and names no other constant. */
  lemma NamesParse(d: Destination, t: ServiceType)
    ensures ParseDestination(DestinationName(d)) == Some(d)
    ensures ParseServiceType(ServiceTypeName(t)) == Some(t)
  {
  }

  lemma {:induction false} ServiceCodeNameParses(c: ServiceCode)
    ensures ParseServiceCode(ServiceCodeName(c)) == Some(c)
  {
    ServiceCodeNamesDistinct();
    var i := ServiceCodeIndex(c);
    assert AllServiceCodes()[i] == c;
  }

  lemma {:induction false} ServiceOptionNameParses(o: ServiceOption)
    ensures ParseServiceOption(ServiceOptionName(o)) == Some(o)
  {
    ServiceOptionNamesDistinct();
    var i := ServiceOptionIndex(o);
    assert AllServiceOptions()[i] == o;
  }

  /** `assertExists` on a value: only an identical string constant passes. */
  function AssertDestination(v: Value): (r: Result<Destination>)
    ensures r.Ok? <==> v.Str? && ParseDestination(v.s).Some?
    ensures r.Ok? ==> v == Str(DestinationName(r.value))
    ensures r.Err? ==> r.error.InvalidArgument?
  {
    if v.Str? && ParseDestination(v.s).Some? then Ok(ParseDestination(v.s).value)
    else Err(InvalidArgument("Invalid destination"))
  }

  function AssertServiceType(v: Value): (r: Result<ServiceType>)
    ensures r.Ok? <==> v.Str? && ParseServiceType(v.s).Some?
    ensures r.Ok? ==> v == Str(ServiceTypeName(r.value))
    ensures r.Err? ==> r.error.InvalidArgument?
  {
    if v.Str? && ParseServiceType(v.s).Some? then Ok(ParseServiceType(v.s).value)
    else Err(InvalidArgument("Invalid service type"))
  }

  function AssertServiceCode(v: Value): (r: Result<ServiceCode>)
    ensures r.Ok? <==> v.Str? && ParseServiceCode(v.s).Some?
    ensures r.Ok? ==> v == Str(ServiceCodeName(r.value))
    ensures r.Err? ==> r.error.InvalidArgument?
  {
    if v.Str? && ParseServiceCode(v.s).Some? then Ok(ParseServiceCode(v.s).value)
    else Err(InvalidArgument("Invalid service code"))
  }

  function AssertServiceOption(v: Value): (r: Result<ServiceOption>)
    ensures r.Ok? <==> v.Str? && ParseServiceOption(v.s).Some?
    ensures r.Ok? ==> v == Str(ServiceOptionName(r.value))
    ensures r.Err? ==> r.error.InvalidArgument?
  {
    if v.Str? && ParseServiceOption(v.s).Some? then Ok(ParseServiceOption(v.s).value)
    else Err(InvalidArgument("Invalid service option"))
  }
}
