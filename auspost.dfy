/**
 * The `AusPost` shipping method: its configuration helpers, the choice of
 * package types per destination, the packing of an order for one service,
 * and `calculateRates`, which asks the carrier for every packed box of
 * every enabled service and sums the adjusted costs into one rate per
 * service.
 */
module AusPostShipping {
  import opened Wrappers
  import opened OrderedMaps
  import opened PhpValues
  import opened Units
  import opened Commerce
  import opened ServiceEnums
  import opened ServiceDefinition
  import opened PackableItems
  import opened PackageTypes
  import opened Packing
  import opened PostageRequest
  import opened PostageResponse
  import opened PostageClient
  import ShippingAddress
  import ServiceDefinitionDefaults
  import Deriver

  /** `PHP_ROUND_HALF_UP`. */
  const HalfUp: int := 1

  /** `RounderInterface::round($price, $mode)`, on the price's number. */
  type Rounder = (real, int) -> real

  const NotConfigured: Failure := ConfigurationError("The commerce_auspost shipping method is not configured.")

  /** `ConfigureForm::isConfigured()`: the method has a non-empty API key. */
  predicate IsConfigured(configuration: Value)
  {
    !Empty(ApiKey(configuration))
  }

  function ApiKey(configuration: Value): Value
  {
    Field(Field(configuration, "api_information"), "api_key")
  }

  // ---- getModifiedPostageCost ----

  /** The configured rate multiplier, 1.0 when the setting is empty. */
  function Multiplier(configuration: Value): (m: real)
    ensures Empty(Field(Field(configuration, "options"), "rate_multiplier")) ==> m == 1.0
  {
    var raw := Field(Field(configuration, "options"), "rate_multiplier");
    if Empty(raw) then 1.0 else ToFloat(raw)
  }

  /** The configured rounding mode, half-up when the setting is empty. */
  function RoundingMode(configuration: Value): (mode: int)
    ensures Empty(Field(Field(configuration, "options"), "round")) ==> mode == HalfUp
  {
    var raw := Field(Field(configuration, "options"), "round");
    if Empty(raw) then HalfUp else ToInt(raw)
  }

  /** The postage after a multiplier; a multiplier of 1 or less is ignored. */
  function ScaledPostage(postage: real, multiplier: real): (r: real)
    ensures multiplier <= 1.0 ==> r == postage
  {
    if multiplier > 1.0 then postage * multiplier else postage
  }

  /** A multiplier above 1 scales the cost, and so only ever raises it. */
  lemma ScalingNeverLowers(postage: real, multiplier: real)
    requires postage >= 0.0
    ensures ScaledPostage(postage, multiplier) >= postage
    ensures multiplier > 1.0 ==> ScaledPostage(postage, multiplier) == postage * multiplier
  {
    if multiplier > 1.0 {
      MulMonotone(postage, postage, 1.0, multiplier);
    }
  }

  /** `getModifiedPostageCost()`: the scaled postage, always rounded. */
  function ModifiedPostageCost(postage: real, configuration: Value, rounder: Rounder): real
  {
    rounder(ScaledPostage(postage, Multiplier(configuration)), RoundingMode(configuration))
  }

  /** With the defaults (no multiplier, no rounding mode) the carrier's cost is only rounded, half-up. */
  lemma DefaultCostIsRounded(postage: real, configuration: Value, rounder: Rounder)
    requires Empty(Field(Field(configuration, "options"), "rate_multiplier"))
    requires Empty(Field(Field(configuration, "options"), "round"))
    ensures ModifiedPostageCost(postage, configuration, rounder) == rounder(postage, HalfUp)
  {
  }

  // ---- getPossiblePackageTypes / getEnabledPackageTypes ----

  /** `strlen('commerce_auspost:')`. */
  const PrefixLength: nat := 17

  /**
   * Whether a package type is offered for a destination: other modules'
   * types always are; this module's types only when the key after the
   * `commerce_auspost:` prefix starts with the destination.
   */
  predicate KeepType(key: string, destination: string)
  {
    !StartsWith(key, "commerce_auspost") || (|key| >= PrefixLength && StartsWith(key[PrefixLength..], destination))
  }

  function UnknownDestination(dest: Value): Failure
  {
    ConfigurationError("Unknown package destination '" + Interpolate(dest) + "'.")
  }

  /** `getPossiblePackageTypes($dest)`. */
  function PossiblePackageTypes<V>(types: OMap<V>, dest: Value): (r: Result<OMap<V>>)
    ensures dest == Null ==> r == Ok(types)
    ensures dest != Null ==> (r.Ok? <==> AssertDestination(dest).Ok?)
    ensures dest != Null && r.Err? ==> r.error == UnknownDestination(dest)
    ensures dest != Null && r.Ok? ==>
      && (forall i :: 0 <= i < |r.value| ==> r.value[i] in types && KeepType(r.value[i].0, dest.s))
      && (forall i :: 0 <= i < |types| && KeepType(types[i].0, dest.s) ==> types[i] in r.value)
  {
    if dest == Null then Ok(types)
    else match AssertDestination(dest)
      case Err(_) => Err(UnknownDestination(dest))
      case Ok(d) =>
        FilterMembers(types, (e: (string, V)) => KeepType(e.0, DestinationName(d)));
        Ok(Filter(types, (e: (string, V)) => KeepType(e.0, DestinationName(d))))
  }

  /** Types from other modules are offered for every destination. */
  lemma ForeignTypesAlwaysOffered<V>(types: OMap<V>, dest: Value, i: nat)
    requires i < |types| && !StartsWith(types[i].0, "commerce_auspost")
    requires PossiblePackageTypes(types, dest).Ok?
    ensures types[i] in PossiblePackageTypes(types, dest).value
  {
  }

  /** The truthy entries of the configured package-type list (`array_filter`). */
  function Truthy(v: Value): (r: OMap<Value>)
    ensures forall i :: 0 <= i < |r| ==> !Empty(r[i].1) && v.Arr? && r[i] in v.items
    ensures v.Arr? ==> forall i :: 0 <= i < |v.items| && !Empty(v.items[i].1) ==> v.items[i] in r
  {
    if v.Arr? then
      FilterMembers(v.items, (e: (string, Value)) => !Empty(e.1));
      Filter(v.items, (e: (string, Value)) => !Empty(e.1))
    else []
  }

  /** The configured package-type list for a destination. */
  function EnabledSetting(configuration: Value, dest: Value): Value
  {
    Field(Field(configuration, "enabled_package_types"), Interpolate(dest))
  }

  /**
   * `getEnabledPackageTypes($dest)`: the possible types, narrowed to the
   * ones ticked in the configuration when any are.
   */
  function EnabledPackageTypes<V>(types: OMap<V>, configuration: Value, dest: Value): (r: Result<OMap<V>>)
    ensures r.Ok? <==> PossiblePackageTypes(types, dest).Ok?
    ensures r.Err? ==> r.error == PossiblePackageTypes(types, dest).error
    ensures r.Ok? && (dest == Null || Empty(EnabledSetting(configuration, dest))) ==>
      r.value == PossiblePackageTypes(types, dest).value
    ensures r.Ok? ==> forall i :: 0 <= i < |r.value| ==> r.value[i] in PossiblePackageTypes(types, dest).value
    ensures r.Ok? && dest != Null && !Empty(EnabledSetting(configuration, dest)) ==>
      forall i :: 0 <= i < |r.value| ==> HasKey(Truthy(EnabledSetting(configuration, dest)), r.value[i].0)
    ensures r.Ok? && dest != Null && !Empty(EnabledSetting(configuration, dest)) ==>
      var possible := PossiblePackageTypes(types, dest).value;
      forall i :: 0 <= i < |possible| && HasKey(Truthy(EnabledSetting(configuration, dest)), possible[i].0) ==>
        possible[i] in r.value
  {
    var possible :- PossiblePackageTypes(types, dest);
    if dest != Null && !Empty(EnabledSetting(configuration, dest)) then
      Ok(IntersectKeys(possible, Truthy(EnabledSetting(configuration, dest))))
    else Ok(possible)
  }

  /**
   * A possible type that has a truthy entry of its own in the configured
   * list stays enabled: narrowing drops only the types nobody ticked.
   */
  lemma TickedTypeEnabled<V>(types: OMap<V>, configuration: Value, dest: Value, i: nat, j: nat)
    requires PossiblePackageTypes(types, dest).Ok? && dest != Null
    requires var setting := EnabledSetting(configuration, dest);
      setting.Arr? && j < |setting.items| && !Empty(setting.items[j].1)
    requires var possible := PossiblePackageTypes(types, dest).value;
      i < |possible| && possible[i].0 == EnabledSetting(configuration, dest).items[j].0
    ensures PossiblePackageTypes(types, dest).value[i] in EnabledPackageTypes(types, configuration, dest).value
  {
    var setting := EnabledSetting(configuration, dest);
    var ticked := Truthy(setting);
    assert setting.items[j] in ticked;
    var k :| 0 <= k < |ticked| && ticked[k] == setting.items[j];
    assert Keys(ticked)[k] == PossiblePackageTypes(types, dest).value[i].0;
  }

  // ---- getPackedBoxes ----

  /** `$packer->addPackageType()` over the package types: invalid ones are skipped, other failures stop. */
  function AcceptedTypes(acc: seq<PackageType>, types: OMap<OMap<Value>>, destination: string, validate: SizeValidator): Result<seq<PackageType>>
    decreases |types|
  {
    if types == [] then Ok(acc)
    else match Construct(types[0].1, destination, validate)
      case Ok(p) => AcceptedTypes(acc + [p], types[1..], destination, validate)
      case Err(f) =>
        if f.ShipmentPackerError? then AcceptedTypes(acc, types[1..], destination, validate) else Err(f)
  }

  /** `new PackableCommercePackageType($definition, ...)` for the service's destination and size check. */
  function Builder(destination: string, validate: SizeValidator): OMap<Value> -> Result<PackageType>
  {
    t => Construct(t, destination, validate)
  }

  /** Every accepted type is one built from a definition, kept in order after what was there. */
  lemma {:induction false} AcceptedTypesExtend(acc: seq<PackageType>, types: OMap<OMap<Value>>, destination: string, validate: SizeValidator)
    requires AcceptedTypes(acc, types, destination, validate).Ok?
    ensures var r := AcceptedTypes(acc, types, destination, validate).value;
      && |acc| <= |r| <= |acc| + |types| && r[..|acc|] == acc
      && forall j :: |acc| <= j < |r| ==> BuiltFrom(types, Builder(destination, validate), r[j])
    decreases |types|
  {
    if types != [] {
      var build := Builder(destination, validate);
      var r := AcceptedTypes(acc, types, destination, validate).value;
      var first := Construct(types[0].1, destination, validate);
      if first.Ok? {
        AcceptedTypesFirstBuilt(acc, types, destination, validate);
        AcceptedTypesExtend(acc + [first.value], types[1..], destination, validate);
        BuiltAfterFirst(acc, first.value, types, build, r);
      } else {
        AcceptedTypesFirstFails(acc, types, destination, validate);
        AcceptedTypesExtend(acc, types[1..], destination, validate);
        BuiltAfterSkip(|acc|, types, build, r);
      }
    }
  }

  /** `y` is what `build` makes of one of the definitions. */
  ghost predicate BuiltFrom<X, Y>(types: seq<(string, X)>, build: X -> Result<Y>, y: Y)
  {
    exists i :: 0 <= i < |types| && build(types[i].1) == Ok(y)
  }

  /** What is built from a later definition is built from one of the definitions. */
  lemma BuiltFromLater<X, Y>(types: seq<(string, X)>, build: X -> Result<Y>, y: Y)
    requires types != [] && BuiltFrom(types[1..], build, y)
    ensures BuiltFrom(types, build, y)
  {
    var i :| 0 <= i < |types[1..]| && build(types[1..][i].1) == Ok(y);
    assert types[i + 1] == types[1..][i];
  }

  /** A value built from the first definition, followed by values built from later ones, are all built from the definitions. */
  lemma BuiltAfterFirst<X, Y>(acc: seq<Y>, p: Y, types: seq<(string, X)>, build: X -> Result<Y>, r: seq<Y>)
    requires types != [] && build(types[0].1) == Ok(p)
    requires |acc| + 1 <= |r| && r[..|acc| + 1] == acc + [p]
    requires forall j :: |acc| + 1 <= j < |r| ==> BuiltFrom(types[1..], build, r[j])
    ensures r[..|acc|] == acc
    ensures forall j :: |acc| <= j < |r| ==> BuiltFrom(types, build, r[j])
  {
    assert r[..|acc| + 1][..|acc|] == acc;
    forall j | |acc| <= j < |r|
      ensures BuiltFrom(types, build, r[j])
    {
      if j == |acc| {
        assert r[..|acc| + 1][|acc|] == p;
        assert build(types[0].1) == Ok(r[j]);
      } else {
        BuiltFromLater(types, build, r[j]);
      }
    }
  }

  /** Values built from later definitions are built from the definitions. */
  lemma BuiltAfterSkip<X, Y>(lo: nat, types: seq<(string, X)>, build: X -> Result<Y>, r: seq<Y>)
    requires types != []
    requires forall j :: lo <= j < |r| ==> BuiltFrom(types[1..], build, r[j])
    ensures forall j :: lo <= j < |r| ==> BuiltFrom(types, build, r[j])
  {
    forall j | lo <= j < |r|
      ensures BuiltFrom(types, build, r[j])
    {
      BuiltFromLater(types, build, r[j]);
    }
  }

  /** `n` copies of an item; none when `n` is not positive. */
  function Copies(item: PackableItem, n: int): (r: seq<PackableItem>)
    ensures |r| == if n > 0 then n else 0
    ensures forall j :: 0 <= j < |r| ==> r[j] == item
    decreases n
  {
    if n <= 0 then [] else Copies(item, n - 1) + [item]
  }

  /** Each order item added `(int) quantity` times, in order. */
  function ItemCopies(items: seq<OrderItem>): seq<PackableItem>
  {
    if items == [] then []
    else ItemCopies(items[..|items| - 1]) + Copies(PackableItem(items[|items| - 1]), Trunc(items[|items| - 1].quantity))
  }

  /** A whole quantity `q` puts exactly `q` copies of the item in front of the packer. */
  lemma ItemCopiesSingle(item: OrderItem, q: nat)
    requires item.quantity == q as real
    ensures ItemCopies([item]) == Copies(PackableItem(item), q)
  {
    assert [item][..0] == [];
  }

  /** `getPackedBoxes()`: pack the order's items into the accepted package types. */
  function PackedBoxes(types: OMap<OMap<Value>>, items: seq<OrderItem>, destination: string,
                       algorithm: PackAlgorithm, validate: SizeValidator): Result<seq<PackedBox>>
  {
    var accepted :- AcceptedTypes([], types, destination, validate);
    var raw := algorithm(accepted, ItemCopies(items));
    if raw.Err? then Err(raw.error) else Ok(WrapBoxes(raw.value))
  }

  // ---- calculateRates ----

  /** The shipping method's settings and the collaborators it is given. */
  datatype Settings = Settings(
    configuration: Value,
    packageTypes: OMap<OMap<Value>>,
    rounder: Rounder,
    algorithm: PackAlgorithm,
    validate: SizeValidator,
    weigher: ParcelWeigher)

  /** `ShippingService`: the id and label shown for a rate. */
  datatype ShippingService = ShippingService(id: Value, displayLabel: Value)

  /** `ShippingRate`: the service definition's id, its service and the price. */
  datatype ShippingRate = ShippingRate(id: string, service: ShippingService, amount: Price)

  /** `in_array($serviceId, $this->configuration['services'], TRUE)`. */
  predicate ServiceEnabled(configuration: Value, serviceId: string)
  {
    var services := Field(configuration, "services");
    services.Arr? && InArrayStrict(Str(serviceId), services.items)
  }

  /**
   * The request built for one packed box: address, shipment and box, the
   * service's type as package type (an unknown type is a RequestException),
   * then the service definition.
   */
  function BoxRequest(address: ShippingAddress.Address, shipment: Shipment, box: PackedBox, fields: Fields): (r: Result<RequestState>)
    ensures r.Ok? <==> AssertServiceType(fields.serviceType).Ok?
    ensures r.Err? ==> r.error == RequestError("Unknown package type '" + Interpolate(fields.serviceType) + "'.")
    ensures r.Ok? ==> (
      && r.value.address == Some(address) && r.value.shipment == Some(shipment)
      && r.value.packedBox == Some(box) && r.value.serviceDefinition == Some(fields)
      && r.value.packageType == fields.serviceType
      && r.value.insuranceEnabled.None?)
  {
    if AssertServiceType(fields.serviceType).Err? then
      Err(RequestError("Unknown package type '" + Interpolate(fields.serviceType) + "'."))
    else
      Ok(Unset.(address := Some(address), shipment := Some(shipment), packedBox := Some(box),
                packageType := fields.serviceType, serviceDefinition := Some(fields)))
  }

  /** The carrier's reply for a request, through an SDK client already built. */
  function BoxQuote(s: RequestState, weigher: ParcelWeigher, sdk: SdkClient, carrier: Carrier): Result<OMap<Value>>
  {
    var call :- PostageCall(s, weigher);
    carrier(call.0, call.1, sdk)
  }

  /** Once the client can be built, quoting a request is calling the carrier with that client. */
  lemma QuoteThroughClient(s: RequestState, weigher: ParcelWeigher, apiKey: Value, cached: Option<SdkClient>, sdk: SdkClient, carrier: Carrier)
    requires ClientFor(apiKey, cached) == Ok(sdk)
    ensures Quote(s, weigher, apiKey, cached, carrier) == BoxQuote(s, weigher, sdk, carrier)
  {
  }

  /** The failures `calculateRates` catches to skip a service: the HTTP client's and the response's. */
  predicate Caught(f: Failure)
  {
    f.TransportError? || f.ResponseError?
  }

  /**
   * One packed box's contribution: its adjusted postage, None when a caught
   * failure skips the service, or the failure that ends `calculateRates`.
   */
  function BoxCost(st: Settings, address: ShippingAddress.Address, shipment: Shipment, fields: Fields,
                   sdk: SdkClient, carrier: Carrier, box: PackedBox): (r: Result<Option<real>>)
  {
    var s :- BoxRequest(address, shipment, box, fields);
    var reply := BoxQuote(s, st.weigher, sdk, carrier);
    var postage := if reply.Err? then Err(reply.error) else Postage(Some(reply.value));
    if postage.Err? then
      if Caught(postage.error) then Ok(None) else Err(postage.error)
    else Ok(Some(ModifiedPostageCost(postage.value, st.configuration, st.rounder)))
  }

  /** The cost of each box of one service, as `BoxCost` gives it. */
  type BoxCosts = PackedBox -> Result<Option<real>>

  function CostOf(st: Settings, address: ShippingAddress.Address, shipment: Shipment, fields: Fields,
                  sdk: SdkClient, carrier: Carrier): BoxCosts
  {
    box => BoxCost(st, address, shipment, fields, sdk, carrier, box)
  }

  /**
   * `cost` prices every box as `BoxCost` does. The quantifier fires only on
   * a `BoxCost` term, so code that merely passes `cost` along never has to
   * look into how a box is priced.
   */
  ghost predicate CostsAgree(cost: BoxCosts, st: Settings, address: ShippingAddress.Address, shipment: Shipment,
                             fields: Fields, sdk: SdkClient, carrier: Carrier)
  {
    forall box {:trigger BoxCost(st, address, shipment, fields, sdk, carrier, box)} ::
      cost(box) == BoxCost(st, address, shipment, fields, sdk, carrier, box)
  }

  /** The running total over the packed boxes; the first box that skips the service skips it. */
  function BoxesTotal(acc: real, cost: BoxCosts, boxes: seq<PackedBox>): Result<Option<real>>
    decreases |boxes|
  {
    if boxes == [] then Ok(Some(acc))
    else
      var c :- cost(boxes[0]);
      if c.None? then Ok(None)
      else BoxesTotal(acc + c.value, cost, boxes[1..])
  }

  /** The rate for one service definition, None when it is disabled or skipped. */
  function ServiceRate(st: Settings, address: ShippingAddress.Address, shipment: Shipment, sdk: SdkClient,
                       carrier: Carrier, serviceId: string, serviceConfig: Value): Result<Option<ShippingRate>>
  {
    if !ServiceEnabled(st.configuration, serviceId) then Ok(None)
    else
      var fields :- Configure(serviceConfig);
      var types :- EnabledPackageTypes(st.packageTypes, st.configuration, fields.destination);
      var packed := PackedBoxes(types, shipment.order.items, Interpolate(fields.destination), st.algorithm, st.validate);
      if packed.Err? then
        if packed.error.ItemTooLarge? then Ok(None) else Err(packed.error)
      else
        var total :- BoxesTotal(0.0, CostOf(st, address, shipment, fields, sdk, carrier), packed.value);
        if total.None? then Ok(None)
        else Ok(Some(ShippingRate(serviceId, ShippingService(fields.serviceId, fields.displayLabel),
                                  Price(total.value, AudCurrencyCode))))
  }

  /** The rate each service definition gets, as `ServiceRate` gives it. */
  type ServiceRates = (string, Value) -> Result<Option<ShippingRate>>

  function RateOf(st: Settings, address: ShippingAddress.Address, shipment: Shipment, sdk: SdkClient, carrier: Carrier): ServiceRates
  {
    (serviceId, serviceConfig) => ServiceRate(st, address, shipment, sdk, carrier, serviceId, serviceConfig)
  }

  /** `rate` is `ServiceRate`; like `CostsAgree`, the quantifier fires only on a `ServiceRate` term. */
  ghost predicate RatesAgree(rate: ServiceRates, st: Settings, address: ShippingAddress.Address, shipment: Shipment,
                             sdk: SdkClient, carrier: Carrier)
  {
    forall serviceId, serviceConfig {:trigger ServiceRate(st, address, shipment, sdk, carrier, serviceId, serviceConfig)} ::
      rate(serviceId, serviceConfig) == ServiceRate(st, address, shipment, sdk, carrier, serviceId, serviceConfig)
  }

  /** The rates of the service definitions in order, appended to `acc`. */
  function RatesFrom(acc: seq<ShippingRate>, rate: ServiceRates, definitions: OMap<Value>): Result<seq<ShippingRate>>
    decreases |definitions|
  {
    if definitions == [] then Ok(acc)
    else
      var r :- rate(definitions[0].0, definitions[0].1);
      RatesFrom(if r.Some? then acc + [r.value] else acc, rate, definitions[1..])
  }

  /**
   * `calculateRates($shipment)`: refused when the method is not configured,
   * no rates for an empty address, otherwise one rate per enabled service
   * that is neither too small nor refused by the carrier. The SDK client is
   * the one cached from earlier calls, or one built from the configured key.
   */
  function Rates(st: Settings, definitions: OMap<Value>, shipment: Shipment, cached: Option<SdkClient>, carrier: Carrier): (r: Result<seq<ShippingRate>>)
    ensures !IsConfigured(st.configuration) ==> r == Err(NotConfigured)
    ensures IsConfigured(st.configuration) && ShippingAddress.IsEmpty(ShippingAddress.Address(shipment)) ==> r == Ok([])
  {
    if !IsConfigured(st.configuration) then Err(NotConfigured)
    else
      var address := ShippingAddress.Address(shipment);
      if ShippingAddress.IsEmpty(address) then Ok([])
      else
        var sdk := ClientFor(ApiKey(st.configuration), cached).value;
        RatesFrom([], RateOf(st, address, shipment, sdk, carrier), definitions)
  }

  // ---- properties of calculateRates ----

  /** The box has a price: its request was built and the carrier's cost read. */
  predicate Priced(cost: BoxCosts, box: PackedBox)
  {
    cost(box).Ok? && cost(box).value.Some?
  }

  /** A box is priced exactly when its request is valid and the carrier returns a total cost. */
  lemma BoxCostPriced(st: Settings, address: ShippingAddress.Address, shipment: Shipment, fields: Fields,
                      sdk: SdkClient, carrier: Carrier, box: PackedBox)
    ensures var s := BoxRequest(address, shipment, box, fields);
      Priced(CostOf(st, address, shipment, fields, sdk, carrier), box) <==>
        (s.Ok? && BoxQuote(s.value, st.weigher, sdk, carrier).Ok?
         && Postage(Some(BoxQuote(s.value, st.weigher, sdk, carrier).value)).Ok?)
    ensures BoxCost(st, address, shipment, fields, sdk, carrier, box) == Ok(None) <==>
      var s := BoxRequest(address, shipment, box, fields);
      s.Ok? && var q := BoxQuote(s.value, st.weigher, sdk, carrier);
        if q.Err? then Caught(q.error) else Postage(Some(q.value)).Err?
  {
  }

  /** One step of the running total, at box `k`. */
  lemma BoxesTotalStep(acc: real, cost: BoxCosts, boxes: seq<PackedBox>, k: nat, c: Result<Option<real>>)
    requires k < |boxes| && cost(boxes[k]) == c
    ensures c.Err? ==> BoxesTotal(acc, cost, boxes[k..]) == Err(c.error)
    ensures c == Ok(None) ==> BoxesTotal(acc, cost, boxes[k..]) == Ok(None)
    ensures c.Ok? && c.value.Some? ==>
      BoxesTotal(acc, cost, boxes[k..]) == BoxesTotal(acc + c.value.value, cost, boxes[k + 1..])
  {
    assert boxes[k..][0] == boxes[k] && boxes[k..][1..] == boxes[k + 1..];
  }

  /** A service gets a total exactly when every one of its boxes is priced. */
  lemma {:induction false} BoxesTotalAllPriced(acc: real, cost: BoxCosts, boxes: seq<PackedBox>)
    ensures var r := BoxesTotal(acc, cost, boxes);
      (r.Ok? && r.value.Some?) <==> forall k :: 0 <= k < |boxes| ==> Priced(cost, boxes[k])
    decreases |boxes|
  {
    if boxes != [] {
      if Priced(cost, boxes[0]) {
        BoxesTotalAllPriced(acc + cost(boxes[0]).value.value, cost, boxes[1..]);
        if forall k :: 0 <= k < |boxes| - 1 ==> Priced(cost, boxes[1..][k]) {
          forall k | 0 <= k < |boxes| ensures Priced(cost, boxes[k]) {
            if k > 0 { assert boxes[k] == boxes[1..][k - 1]; }
          }
        } else {
          var k :| 0 <= k < |boxes| - 1 && !Priced(cost, boxes[1..][k]);
          assert boxes[k + 1] == boxes[1..][k];
        }
      }
    }
  }

  /**
   * A caught failure on any box, after boxes that were all priced, drops
   * the whole service: no partial rate is reported.
   */
  lemma {:induction false} CaughtFailureSkipsService(acc: real, cost: BoxCosts, boxes: seq<PackedBox>, k: nat)
    requires k < |boxes|
    requires forall j :: 0 <= j < k ==> Priced(cost, boxes[j])
    requires cost(boxes[k]) == Ok(None)
    ensures BoxesTotal(acc, cost, boxes) == Ok(None)
    decreases k
  {
    if k > 0 {
      assert Priced(cost, boxes[0]);
      forall j | 0 <= j < k - 1 ensures Priced(cost, boxes[1..][j]) {
        assert boxes[1..][j] == boxes[j + 1];
      }
      assert boxes[1..][k - 1] == boxes[k];
      CaughtFailureSkipsService(acc + cost(boxes[0]).value.value, cost, boxes[1..], k - 1);
    }
  }

  /** The total over two runs of boxes is the total of the second run started from the first's. */
  lemma {:induction false} BoxesTotalSplit(acc: real, cost: BoxCosts, a: seq<PackedBox>, b: seq<PackedBox>)
    ensures var first := BoxesTotal(acc, cost, a);
      BoxesTotal(acc, cost, a + b) ==
        if first.Ok? && first.value.Some? then BoxesTotal(first.value.value, cost, b) else first
    decreases |a|
  {
    if a == [] {
      assert a + b == b;
    } else {
      assert (a + b)[0] == a[0] && (a + b)[1..] == a[1..] + b;
      if Priced(cost, a[0]) {
        BoxesTotalSplit(acc + cost(a[0]).value.value, cost, a[1..], b);
      }
    }
  }

  /** With every box priced at the same cost `c`, the total is `c` per box. */
  lemma {:induction false} UniformBoxesTotal(acc: real, cost: BoxCosts, boxes: seq<PackedBox>, c: real)
    requires forall k :: 0 <= k < |boxes| ==> cost(boxes[k]) == Ok(Some(c))
    ensures BoxesTotal(acc, cost, boxes) == Ok(Some(acc + |boxes| as real * c))
    decreases |boxes|
  {
    if boxes != [] {
      assert cost(boxes[0]) == Ok(Some(c));
      forall k | 0 <= k < |boxes| - 1 ensures cost(boxes[1..][k]) == Ok(Some(c)) {
        assert boxes[1..][k] == boxes[k + 1];
      }
      UniformBoxesTotal(acc + c, cost, boxes[1..], c);
      assert BoxesTotal(acc, cost, boxes) == BoxesTotal(acc + c, cost, boxes[1..]);
      var m := |boxes[1..]| as real;
      assert |boxes| as real == m + 1.0;
      assert (m + 1.0) * c == m * c + c;
    }
  }

  /**
   * A rate is only ever produced for an enabled service whose definition
   * constructs: it carries the service definition's id as its id, the
   * configured service id and label, and as its amount the total of the
   * packed boxes' costs, in Australian dollars.
   */
  lemma ServiceRateFacts(st: Settings, address: ShippingAddress.Address, shipment: Shipment, sdk: SdkClient,
                         carrier: Carrier, serviceId: string, serviceConfig: Value)
    ensures !ServiceEnabled(st.configuration, serviceId) ==> ServiceRate(st, address, shipment, sdk, carrier, serviceId, serviceConfig) == Ok(None)
    ensures var r := ServiceRate(st, address, shipment, sdk, carrier, serviceId, serviceConfig);
      r.Ok? && r.value.Some? ==> (
        && ServiceEnabled(st.configuration, serviceId)
        && Configure(serviceConfig).Ok?
        && r.value.value.id == serviceId
        && r.value.value.service == ShippingService(Field(serviceConfig, "service_id"), Field(serviceConfig, "label"))
        && r.value.value.amount.currencyCode == AudCurrencyCode
        && var fields := Configure(serviceConfig).value;
           && EnabledPackageTypes(st.packageTypes, st.configuration, fields.destination).Ok?
           && var types := EnabledPackageTypes(st.packageTypes, st.configuration, fields.destination).value;
              && PackedBoxes(types, shipment.order.items, Interpolate(fields.destination), st.algorithm, st.validate).Ok?
              && var packed := PackedBoxes(types, shipment.order.items, Interpolate(fields.destination), st.algorithm, st.validate).value;
                 BoxesTotal(0.0, CostOf(st, address, shipment, fields, sdk, carrier), packed) == Ok(Some(r.value.value.amount.number)))
  {
    var r := ServiceRate(st, address, shipment, sdk, carrier, serviceId, serviceConfig);
    if r.Ok? && r.value.Some? {
      ConfigureValidates(serviceConfig);
      var fields := Configure(serviceConfig).value;
      var types := EnabledPackageTypes(st.packageTypes, st.configuration, fields.destination).value;
      var packed := PackedBoxes(types, shipment.order.items, Interpolate(fields.destination), st.algorithm, st.validate).value;
      var total := BoxesTotal(0.0, CostOf(st, address, shipment, fields, sdk, carrier), packed).value.value;
      assert r.value.value == ShippingRate(serviceId, ShippingService(fields.serviceId, fields.displayLabel),
                                           Price(total, AudCurrencyCode));
    }
  }

  /** Packing the order into no boxes gives the service a free rate. */
  lemma NoBoxesFreeRate(st: Settings, address: ShippingAddress.Address, shipment: Shipment, sdk: SdkClient,
                        carrier: Carrier, serviceId: string, serviceConfig: Value, types: OMap<OMap<Value>>)
    requires ServiceEnabled(st.configuration, serviceId)
    requires Configure(serviceConfig).Ok?
    requires var fields := Configure(serviceConfig).value;
      && EnabledPackageTypes(st.packageTypes, st.configuration, fields.destination) == Ok(types)
      && PackedBoxes(types, shipment.order.items, Interpolate(fields.destination), st.algorithm, st.validate) == Ok([])
    ensures var fields := Configure(serviceConfig).value;
      ServiceRate(st, address, shipment, sdk, carrier, serviceId, serviceConfig)
        == Ok(Some(ShippingRate(serviceId, ShippingService(fields.serviceId, fields.displayLabel), Price(0.0, AudCurrencyCode))))
  {
  }

  /** An item too large for every enabled package type skips the service instead of failing. */
  lemma ItemTooLargeSkipsService(st: Settings, address: ShippingAddress.Address, shipment: Shipment, sdk: SdkClient,
                                 carrier: Carrier, serviceId: string, serviceConfig: Value, types: OMap<OMap<Value>>)
    requires Configure(serviceConfig).Ok?
    requires var fields := Configure(serviceConfig).value;
      && EnabledPackageTypes(st.packageTypes, st.configuration, fields.destination) == Ok(types)
      && var packed := PackedBoxes(types, shipment.order.items, Interpolate(fields.destination), st.algorithm, st.validate);
        packed.Err? && packed.error.ItemTooLarge?
    ensures ServiceRate(st, address, shipment, sdk, carrier, serviceId, serviceConfig) == Ok(None)
  {
  }

  // ---- the two ServiceSupport calls as written ----

  /**
   * With the size check as written, the package types are accepted only
   * while every one of them lacks a required key (and then none is
   * accepted); the first type that has all its keys stops
   * `calculateRates` with a bad edge or with the \Error, neither of which
   * is the ShipmentPackerException the loop skips.
   */
  lemma {:induction false} AcceptedTypesAsWritten(acc: seq<PackageType>, types: OMap<OMap<Value>>, destination: string)
    ensures var r := AcceptedTypes(acc, types, destination, ValidatorAsWritten());
      && (r.Ok? <==> forall i :: 0 <= i < |types| ==> FirstMissing(RequiredKeys, types[i].1).Some?)
      && (r.Ok? ==> r.value == acc)
      && (r.Err? ==> r.error == UndefinedSizeCheck || r.error.InvalidArgument?)
    decreases |types|
  {
    if types != [] {
      var validate := ValidatorAsWritten();
      ConstructionFailsAsWritten(types[0].1, destination);
      var f := Construct(types[0].1, destination, validate).error;
      AcceptedTypesFirstFails(acc, types, destination, validate);
      if f.ShipmentPackerError? {
        AcceptedTypesAsWritten(acc, types[1..], destination);
      }
      LackingKeysSplit(types);
    }
  }

  /** Every type lacks a key exactly when the first does and every later one does. */
  lemma LackingKeysSplit(types: OMap<OMap<Value>>)
    requires types != []
    ensures (forall i :: 0 <= i < |types| ==> FirstMissing(RequiredKeys, types[i].1).Some?) <==>
      && FirstMissing(RequiredKeys, types[0].1).Some?
      && forall i :: 0 <= i < |types[1..]| ==> FirstMissing(RequiredKeys, types[1..][i].1).Some?
  {
    AllSplit(types, (t: (string, OMap<Value>)) => FirstMissing(RequiredKeys, t.1).Some?);
  }

  /** A property holds of every element exactly when it holds of the first and of every later one. */
  lemma AllSplit<T>(s: seq<T>, p: T -> bool)
    requires s != []
    ensures (forall i :: 0 <= i < |s| ==> p(s[i])) <==> p(s[0]) && forall i :: 0 <= i < |s[1..]| ==> p(s[1..][i])
  {
    forall i | 0 <= i < |s| - 1 ensures s[1..][i] == s[i + 1] { }
    forall i | 0 < i < |s| ensures s[i] == s[1..][i - 1] { }
  }

  /** A first type that builds is accepted, and the loop goes on with the rest. */
  lemma AcceptedTypesFirstBuilt(acc: seq<PackageType>, types: OMap<OMap<Value>>, destination: string, validate: SizeValidator)
    requires types != [] && Construct(types[0].1, destination, validate).Ok?
    ensures AcceptedTypes(acc, types, destination, validate)
      == AcceptedTypes(acc + [Construct(types[0].1, destination, validate).value], types[1..], destination, validate)
  {
  }

  /** A first type that fails to build is skipped when it is invalid, and stops the loop otherwise. */
  lemma AcceptedTypesFirstFails(acc: seq<PackageType>, types: OMap<OMap<Value>>, destination: string, validate: SizeValidator)
    requires types != [] && Construct(types[0].1, destination, validate).Err?
    ensures var f := Construct(types[0].1, destination, validate).error;
      AcceptedTypes(acc, types, destination, validate)
        == if f.ShipmentPackerError? then AcceptedTypes(acc, types[1..], destination, validate) else Err(f)
  {
  }

  /**
   * As written, an enabled service with at least one package type that has
   * all its required keys ends `calculateRates` with an error instead of a
   * rate or a skip.
   */
  lemma UndefinedValidatorAbortsService(st: Settings, address: ShippingAddress.Address, shipment: Shipment, sdk: SdkClient,
                                        carrier: Carrier, serviceId: string, serviceConfig: Value, types: OMap<OMap<Value>>)
    requires st.validate == ValidatorAsWritten()
    requires ServiceEnabled(st.configuration, serviceId) && Configure(serviceConfig).Ok?
    requires EnabledPackageTypes(st.packageTypes, st.configuration, Configure(serviceConfig).value.destination) == Ok(types)
    requires exists i :: 0 <= i < |types| && FirstMissing(RequiredKeys, types[i].1).None?
    ensures var r := ServiceRate(st, address, shipment, sdk, carrier, serviceId, serviceConfig);
      r.Err? && (r.error == UndefinedSizeCheck || r.error.InvalidArgument?)
  {
    var fields := Configure(serviceConfig).value;
    var packed := PackedBoxes(types, shipment.order.items, Interpolate(fields.destination), st.algorithm, st.validate);
    PackedBoxesAsWritten(types, shipment.order.items, Interpolate(fields.destination), st.algorithm);
    assert ServiceRate(st, address, shipment, sdk, carrier, serviceId, serviceConfig) == Err(packed.error);
  }

  /** With the size check as written, packing fails once any type has all its required keys. */
  lemma PackedBoxesAsWritten(types: OMap<OMap<Value>>, items: seq<OrderItem>, destination: string, algorithm: PackAlgorithm)
    requires exists i :: 0 <= i < |types| && FirstMissing(RequiredKeys, types[i].1).None?
    ensures var r := PackedBoxes(types, items, destination, algorithm, ValidatorAsWritten());
      r.Err? && (r.error == UndefinedSizeCheck || r.error.InvalidArgument?)
  {
    AcceptedTypesAsWritten([], types, destination);
  }

  /** As written, every box of a service fails with the \Error of the missing weigher. */
  lemma UndefinedWeigherFailsBox(st: Settings, address: ShippingAddress.Address, shipment: Shipment, fields: Fields,
                                 sdk: SdkClient, carrier: Carrier, box: PackedBox)
    requires st.weigher == WeigherAsWritten()
    requires AssertServiceType(fields.serviceType).Ok?
    ensures BoxCost(st, address, shipment, fields, sdk, carrier, box) == Err(UndefinedParcelWeight)
  {
    var s := BoxRequest(address, shipment, box, fields).value;
    DimensionsFailAsWritten(s);
    assert PostageCall(s, st.weigher) == Err(UndefinedParcelWeight);
  }

  /**
   * As written, an enabled service whose order packs into at least one box
   * ends `calculateRates` with the \Error: the first box's request cannot
   * compute its shipping weight, and the error is not one the loop catches.
   */
  lemma UndefinedWeigherAbortsService(st: Settings, address: ShippingAddress.Address, shipment: Shipment, sdk: SdkClient,
                                      carrier: Carrier, serviceId: string, serviceConfig: Value,
                                      types: OMap<OMap<Value>>, boxes: seq<PackedBox>)
    requires st.weigher == WeigherAsWritten()
    requires ServiceEnabled(st.configuration, serviceId) && Configure(serviceConfig).Ok?
    requires var fields := Configure(serviceConfig).value;
      && EnabledPackageTypes(st.packageTypes, st.configuration, fields.destination) == Ok(types)
      && PackedBoxes(types, shipment.order.items, Interpolate(fields.destination), st.algorithm, st.validate) == Ok(boxes)
    requires boxes != []
    ensures ServiceRate(st, address, shipment, sdk, carrier, serviceId, serviceConfig) == Err(UndefinedParcelWeight)
  {
    ConfigureValidates(serviceConfig);
    var fields := Configure(serviceConfig).value;
    UndefinedWeigherFailsBox(st, address, shipment, fields, sdk, carrier, boxes[0]);
  }

  /**
   * The rates come in the order of the service definitions, at most one per
   * definition: `idx` gives, for each rate appended to `acc`, the
   * definition that produced it, strictly increasing, and it names every
   * definition that produces a rate.
   */
  lemma {:induction false} RatesFromFacts(acc: seq<ShippingRate>, rate: ServiceRates, definitions: OMap<Value>)
    returns (idx: seq<nat>)
    requires RatesFrom(acc, rate, definitions).Ok?
    ensures IndexedRates(acc, rate, definitions, RatesFrom(acc, rate, definitions).value, idx)
    decreases |definitions|
  {
    if definitions == [] {
      idx := [];
    } else {
      var first := rate(definitions[0].0, definitions[0].1).value;
      var acc' := if first.Some? then acc + [first.value] else acc;
      var later := RatesFromFacts(acc', rate, definitions[1..]);
      idx := ShiftedIndices(acc, rate, definitions, RatesFrom(acc, rate, definitions).value, later);
    }
  }

  /**
   * `r` is `acc` followed by the rates that `idx` attributes, in strictly
   * increasing order, to the definitions producing them; every definition
   * gives a rate or none, and each one that gives a rate is in `idx`.
   */
  ghost predicate IndexedRates(acc: seq<ShippingRate>, rate: ServiceRates, definitions: OMap<Value>,
                               r: seq<ShippingRate>, idx: seq<nat>)
  {
    && |r| == |acc| + |idx| && r[..|acc|] == acc
    && (forall k :: 0 <= k < |idx| ==>
          idx[k] < |definitions| && rate(definitions[idx[k]].0, definitions[idx[k]].1) == Ok(Some(r[|acc| + k])))
    && (forall k, k' :: 0 <= k < k' < |idx| ==> idx[k] < idx[k'])
    && (forall i :: 0 <= i < |definitions| ==>
          && rate(definitions[i].0, definitions[i].1).Ok?
          && (rate(definitions[i].0, definitions[i].1).value.Some? ==> i in idx))
  }

  /** One step of `RatesFrom`: the first definition's rate, if any, goes after `acc`. */
  lemma ShiftedIndices(acc: seq<ShippingRate>, rate: ServiceRates, definitions: OMap<Value>,
                       r: seq<ShippingRate>, later: seq<nat>) returns (idx: seq<nat>)
    requires definitions != [] && rate(definitions[0].0, definitions[0].1).Ok?
    requires var first := rate(definitions[0].0, definitions[0].1).value;
      IndexedRates(if first.Some? then acc + [first.value] else acc, rate, definitions[1..], r, later)
    ensures IndexedRates(acc, rate, definitions, r, idx)
  {
    var first := rate(definitions[0].0, definitions[0].1).value;
    var acc' := if first.Some? then acc + [first.value] else acc;
    var shifted := seq(|later|, k requires 0 <= k < |later| => later[k] + 1);
    idx := if first.Some? then [0] + shifted else shifted;
    assert r[..|acc'|][..|acc|] == acc;
    ShiftedProduce(acc, rate, definitions, r, later, idx);
    ShiftedIncreasing(first.Some?, later, idx);
    ShiftedComplete(rate, definitions, later, idx);
  }

  /** Putting index 0 in front of indices shifted by one keeps them strictly increasing. */
  lemma ShiftedIncreasing(withFirst: bool, later: seq<nat>, idx: seq<nat>)
    requires forall k, k' :: 0 <= k < k' < |later| ==> later[k] < later[k']
    requires idx == (if withFirst then [0] else []) + seq(|later|, k requires 0 <= k < |later| => later[k] + 1)
    ensures forall k, k' :: 0 <= k < k' < |idx| ==> idx[k] < idx[k']
  {
  }

  /** The shifted indices still name, in increasing order, the definition of each rate. */
  lemma ShiftedProduce(acc: seq<ShippingRate>, rate: ServiceRates, definitions: OMap<Value>,
                       r: seq<ShippingRate>, later: seq<nat>, idx: seq<nat>)
    requires definitions != [] && rate(definitions[0].0, definitions[0].1).Ok?
    requires var first := rate(definitions[0].0, definitions[0].1).value;
      && IndexedRates(if first.Some? then acc + [first.value] else acc, rate, definitions[1..], r, later)
      && idx == (if first.Some? then [0] else []) + seq(|later|, k requires 0 <= k < |later| => later[k] + 1)
    ensures forall k :: 0 <= k < |idx| ==>
      idx[k] < |definitions| && rate(definitions[idx[k]].0, definitions[idx[k]].1) == Ok(Some(r[|acc| + k]))
  {
    var rest := definitions[1..];
    var first := rate(definitions[0].0, definitions[0].1).value;
    var acc' := if first.Some? then acc + [first.value] else acc;
    forall k | 0 <= k < |idx|
      ensures idx[k] < |definitions| && rate(definitions[idx[k]].0, definitions[idx[k]].1) == Ok(Some(r[|acc| + k]))
    {
      if first.Some? && k == 0 {
        assert r[..|acc'|][|acc|] == r[|acc|];
      } else {
        var k' := if first.Some? then k - 1 else k;
        assert idx[k] == later[k'] + 1 && |acc| + k == |acc'| + k';
        assert definitions[later[k'] + 1] == rest[later[k']];
      }
    }
  }

  /** Every definition that gives a rate is named by the shifted indices. */
  lemma ShiftedComplete(rate: ServiceRates, definitions: OMap<Value>, later: seq<nat>, idx: seq<nat>)
    requires definitions != [] && rate(definitions[0].0, definitions[0].1).Ok?
    requires var first := rate(definitions[0].0, definitions[0].1).value;
      idx == (if first.Some? then [0] else []) + seq(|later|, k requires 0 <= k < |later| => later[k] + 1)
    requires forall i :: 0 <= i < |definitions[1..]| ==>
      && rate(definitions[1..][i].0, definitions[1..][i].1).Ok?
      && (rate(definitions[1..][i].0, definitions[1..][i].1).value.Some? ==> i in later)
    ensures forall i :: 0 <= i < |definitions| ==>
      && rate(definitions[i].0, definitions[i].1).Ok?
      && (rate(definitions[i].0, definitions[i].1).value.Some? ==> i in idx)
  {
    var rest := definitions[1..];
    var first := rate(definitions[0].0, definitions[0].1).value;
    forall i | 0 <= i < |definitions|
      ensures rate(definitions[i].0, definitions[i].1).Ok?
      ensures rate(definitions[i].0, definitions[i].1).value.Some? ==> i in idx
    {
      if i > 0 {
        assert definitions[i] == rest[i - 1];
        if rate(definitions[i].0, definitions[i].1).value.Some? {
          var k :| 0 <= k < |later| && later[k] == i - 1;
          assert idx[if first.Some? then k + 1 else k] == i;
        }
      } else if first.Some? {
        assert idx[0] == 0;
      }
    }
  }

  /**
   * Every rate `calculateRates` returns is in Australian dollars and for an
   * enabled service; `idx` names, in strictly increasing order, the
   * definition each rate belongs to, so the rates follow the definitions'
   * order and no service definition gets two.
   */
  lemma RatesForEnabledServices(st: Settings, definitions: OMap<Value>, shipment: Shipment, cached: Option<SdkClient>, carrier: Carrier)
    returns (idx: seq<nat>)
    requires Rates(st, definitions, shipment, cached, carrier).Ok?
    ensures var r := Rates(st, definitions, shipment, cached, carrier).value;
      && |r| == |idx| <= |definitions|
      && (forall k, k' :: 0 <= k < k' < |idx| ==> idx[k] < idx[k'])
      && forall j :: 0 <= j < |r| ==> (
           && idx[j] < |definitions| && definitions[idx[j]].0 == r[j].id
           && r[j].amount.currencyCode == AudCurrencyCode
           && ServiceEnabled(st.configuration, r[j].id))
    ensures DistinctKeys(definitions) ==>
      var r := Rates(st, definitions, shipment, cached, carrier).value;
      forall j, j' :: 0 <= j < j' < |r| ==> r[j].id != r[j'].id
  {
    var address := ShippingAddress.Address(shipment);
    var r := Rates(st, definitions, shipment, cached, carrier).value;
    if ShippingAddress.IsEmpty(address) {
      idx := [];
    } else {
      var sdk := ClientFor(ApiKey(st.configuration), cached).value;
      var rate := RateOf(st, address, shipment, sdk, carrier);
      RatedServices(st, address, shipment, sdk, carrier);
      idx := ServicesRated(st.configuration, rate, definitions);
      IdsFollowDefinitions(definitions, r, idx);
    }
  }

  /**
   * What a rate function promises of each rate it produces: it carries the
   * definition's id, is in Australian dollars and is for an enabled service.
   */
  ghost predicate RatesEnabledServices(configuration: Value, rate: ServiceRates)
  {
    forall serviceId, serviceConfig :: rate(serviceId, serviceConfig).Ok? && rate(serviceId, serviceConfig).value.Some? ==>
      var rated := rate(serviceId, serviceConfig).value.value;
      serviceId == rated.id && rated.amount.currencyCode == AudCurrencyCode && ServiceEnabled(configuration, rated.id)
  }

  /** `ServiceRate` keeps that promise. */
  lemma RatedServices(st: Settings, address: ShippingAddress.Address, shipment: Shipment, sdk: SdkClient, carrier: Carrier)
    ensures RatesEnabledServices(st.configuration, RateOf(st, address, shipment, sdk, carrier))
  {
    forall serviceId, serviceConfig {
      ServiceRateFacts(st, address, shipment, sdk, carrier, serviceId, serviceConfig);
    }
  }

  /** Over the loop, each rate belongs to the definition `idx` names, in increasing order. */
  lemma ServicesRated(configuration: Value, rate: ServiceRates, definitions: OMap<Value>) returns (idx: seq<nat>)
    requires RatesFrom([], rate, definitions).Ok?
    requires RatesEnabledServices(configuration, rate)
    ensures var r := RatesFrom([], rate, definitions).value;
      && |r| == |idx| <= |definitions|
      && (forall k, k' :: 0 <= k < k' < |idx| ==> idx[k] < idx[k'])
      && forall j :: 0 <= j < |r| ==> (
           && idx[j] < |definitions| && definitions[idx[j]].0 == r[j].id
           && r[j].amount.currencyCode == AudCurrencyCode
           && ServiceEnabled(configuration, r[j].id))
  {
    var r := RatesFrom([], rate, definitions).value;
    idx := RatesFromFacts([], rate, definitions);
    forall j | 0 <= j < |r|
      ensures idx[j] < |definitions| && definitions[idx[j]].0 == r[j].id
      ensures r[j].amount.currencyCode == AudCurrencyCode && ServiceEnabled(configuration, r[j].id)
    {
      assert rate(definitions[idx[j]].0, definitions[idx[j]].1) == Ok(Some(r[j]));
    }
    IncreasingWithin(idx, |definitions|);
  }

  /** Rates attributed to distinct keys in increasing order carry distinct ids. */
  lemma IdsFollowDefinitions(definitions: OMap<Value>, r: seq<ShippingRate>, idx: seq<nat>)
    requires |r| == |idx|
    requires forall k, k' :: 0 <= k < k' < |idx| ==> idx[k] < idx[k']
    requires forall j :: 0 <= j < |r| ==> idx[j] < |definitions| && definitions[idx[j]].0 == r[j].id
    ensures DistinctKeys(definitions) ==> forall j, j' :: 0 <= j < j' < |r| ==> r[j].id != r[j'].id
  {
  }

  /** A strictly increasing sequence of indices below `n` has at most `n` of them. */
  lemma {:induction false} IncreasingWithin(idx: seq<nat>, n: nat)
    requires forall k :: 0 <= k < |idx| ==> idx[k] < n
    requires forall k, k' :: 0 <= k < k' < |idx| ==> idx[k] < idx[k']
    ensures |idx| <= n
    decreases |idx|
  {
    if idx != [] {
      var last := idx[|idx| - 1];
      IncreasingWithin(idx[..|idx| - 1], last);
    }
  }

  // ---- the services the shipping method offers ----

  /** The id of the plugin the service definitions are derived from. */
  const ServiceDefinitionPluginId: string := "commerce_auspost_service_definition"

  /**
   * The services the shipping method's plugin annotation offers, in the
   * order it lists them. Every id there is the plugin id, the separator and
   * one of the names below.
   */
  function AnnotatedServiceName(i: nat): string
    requires i < ServiceDefinitionDefaults.ServiceCount
  {
    match i
    case 0 => "AUS_SERVICE_OPTION_STANDARD"
    case 1 => "AUS_SERVICE_OPTION_SIGNATURE"
    case 2 => "AUS_SERVICE_OPTION_INS"
    case 3 => "AUS_SERVICE_OPTION_SIG_INS"
    case 4 => "AUS_PARCEL_EXPRESS"
    case 5 => "AUS_PARCEL_EXPRESS_SIGNATURE"
    case 6 => "AUS_PARCEL_EXPRESS_INS"
    case 7 => "AUS_PARCEL_EXPRESS_SIG_INS"
    case 8 => "AUS_PARCEL_COURIER"
    case 9 => "AUS_PARCEL_COUR_INS"
    case 10 => "INT_PARCEL_SEA_OWN_PACKAGING"
    case 11 => "INT_PARCEL_SEA_OWN_PACK_SIG"
    case 12 => "INT_PARCEL_SEA_OWN_PACK_INS"
    case 13 => "INT_PARCEL_AIR_OWN_PACKAGING"
    case 14 => "INT_PARCEL_AIR_OWN_PACK_SIG"
    case 15 => "INT_PARCEL_AIR_OWN_PACK_INS"
    case 16 => "INT_PARCEL_STD_OWN_PACKAGING"
    case 17 => "INT_PARCEL_STD_OWN_PACK_SIG"
    case 18 => "INT_PARCEL_STD_OWN_PACK_INS"
    case 19 => "INT_PARCEL_EXP_OWN_PACKAGING"
    case 20 => "INT_PARCEL_EXP_OWN_PACK_INS"
    case 21 => "INT_PARCEL_COR_OWN_PACKAGING"
    case 22 => "INT_PARCEL_COR_OWN_PACK_INS"
    case 23 => "L_AUS_LETTER_SM"
    case 24 => "L_AUS_LETTER_SM_PRIORITY"
    case 25 => "L_AUS_LETTER_LG"
    case 26 => "L_AUS_LETTER_LG_PRIORITY"
    case 27 => "L_AUS_LETTER_SM_REG_POST"
    case 28 => "L_AUS_LETTER_SM_REG_CONF"
    case 29 => "L_AUS_LETTER_SM_REG_P2P"
    case 30 => "L_AUS_LETTER_LG_REG_POST"
    case 31 => "L_AUS_LETTER_LG_REG_POST_CONF"
    case 32 => "L_AUS_LETTER_LG_REG_P2P"
    case 33 => "L_AUS_LETTER_SM_EXP_POST"
    case 34 => "L_AUS_LETTER_SM_EXP_SIG"
    case 35 => "L_AUS_LETTER_MD_EXP"
    case 36 => "L_AUS_LETTER_MD_EXP_SIG"
    case 37 => "L_AUS_LETTER_LG_EXPRESS_POST"
    case 38 => "L_AUS_LETTER_LG_EXP_POST_SIG"
    case 39 => "L_INTL_SERVICE_AIR_MAIL_LGT"
    case 40 => "L_INTL_SERVICE_AIR_MAIL_MED"
    case 41 => "L_INTL_SERVICE_AIR_MAIL_HVY"
    case 42 => "L_INT_LETTER_REG_SMALL"
    case 43 => "L_INT_LETTER_REG_LARGE"
    case 44 => "L_INT_LET_EXP_OWN_PKG"
    case 45 => "L_INT_LET_EXP_OWN_PKG_INS"
    case 46 => "L_INT_LET_COR_OWN_PKG"
    case _ => "L_INT_LET_COR_OWN_PKG_INS"
  }

  function AnnotatedServiceIds(): (ids: seq<string>)
    ensures |ids| == ServiceDefinitionDefaults.ServiceCount
    ensures forall i :: 0 <= i < |ids| ==> ids[i] == ServiceDefinitionPluginId + ":" + AnnotatedServiceName(i)
  {
    seq(ServiceDefinitionDefaults.ServiceCount,
        i requires 0 <= i < ServiceDefinitionDefaults.ServiceCount => ServiceDefinitionPluginId + ":" + AnnotatedServiceName(i))
  }

  /** The annotation names the catalogue's keys, in catalogue order. */
  lemma AnnotatedNamesAreKeys()
    ensures forall i :: 0 <= i < ServiceDefinitionDefaults.ServiceCount ==>
      AnnotatedServiceName(i) == ServiceDefinitionDefaults.KeyAt(i)
  {
  }

  /**
   * Deriving the default catalogue yields, in order, exactly the service ids
   * the shipping method's annotation offers: one definition per id, keyed by
   * the catalogue key the id ends with.
   */
  lemma {:induction false} AnnotationNamesEveryDerivative(base: OMap<Value>)
    requires !HasKey(base, "max_dimensions")
    ensures var r := Deriver.Derive([], ServiceDefinitionPluginId, ServiceDefinitionDefaults.ServicesArray(), base);
      && |r| == |AnnotatedServiceIds()|
      && forall i :: 0 <= i < |r| ==>
           && r[i].1.Arr?
           && Get(r[i].1.items, "id") == Some(Str(AnnotatedServiceIds()[i]))
           && AnnotatedServiceIds()[i] == ServiceDefinitionPluginId + ":" + r[i].0
  {
    var r := Deriver.Derive([], ServiceDefinitionPluginId, ServiceDefinitionDefaults.ServicesArray(), base);
    Deriver.DerivedFromDefaults(ServiceDefinitionPluginId, base);
    AnnotatedNamesAreKeys();
    forall i | 0 <= i < |r|
      ensures && r[i].1.Arr?
              && Get(r[i].1.items, "id") == Some(Str(AnnotatedServiceIds()[i]))
              && AnnotatedServiceIds()[i] == ServiceDefinitionPluginId + ":" + r[i].0
    {
      var key := ServiceDefinitionDefaults.KeyAt(i);
      assert r[i].0 == key && AnnotatedServiceName(i) == key;
      assert AnnotatedServiceIds()[i] == ServiceDefinitionPluginId + ":" + key;
    }
  }

  // ---- the shipping method object ----

  /**
   * `getPackedBoxes()`: a fresh shipment packer is given every package
   * type (invalid ones skipped) and each order item once per unit of its
   * whole quantity, then packs.
   */
  method GetPackedBoxes(types: OMap<OMap<Value>>, items: seq<OrderItem>, destination: string,
                        algorithm: PackAlgorithm, validate: SizeValidator) returns (r: Result<seq<PackedBox>>)
    ensures r == PackedBoxes(types, items, destination, algorithm, validate)
  {
    var library := new BoxPacker(algorithm);
    var packer := new ShipmentPacker(library, validate);
    var added := AddPackageTypes(packer, types, destination);
    if added.Err? {
      return Err(added.error);
    }
    AddItemCopies(packer, items);
    assert library.boxes == [] && library.items == [];
    r := packer.Pack();
    assert library.boxes == AcceptedTypes([], types, destination, validate).value;
    assert library.items == ItemCopies(items);
  }

  /** The loop over package types: a ShipmentPackerException skips the type, any other failure ends packing. */
  method AddPackageTypes(packer: ShipmentPacker, types: OMap<OMap<Value>>, destination: string) returns (r: Result<()>)
    requires packer.packageTypes == [] && packer.orderItems == []
    modifies packer
    ensures r.Ok? <==> AcceptedTypes([], types, destination, packer.validate).Ok?
    ensures r.Ok? ==> Ok(packer.packageTypes) == AcceptedTypes([], types, destination, packer.validate)
    ensures r.Err? ==> Err(r.error) == AcceptedTypes([], types, destination, packer.validate)
    ensures packer.orderItems == []
  {
    for i := 0 to |types|
      invariant AcceptedTypes(packer.packageTypes, types[i..], destination, packer.validate)
             == AcceptedTypes([], types, destination, packer.validate)
      invariant packer.orderItems == []
    {
      assert types[i..][1..] == types[i + 1..];
      var added := packer.AddPackageType(types[i].1, destination);
      if added.Err? && !added.error.ShipmentPackerError? {
        return Err(added.error);
      }
    }
    assert types[|types|..] == [];
    r := Ok(());
  }

  /** The loop over order items: each is added once per unit of its quantity cast to an integer. */
  method AddItemCopies(packer: ShipmentPacker, items: seq<OrderItem>)
    requires packer.orderItems == []
    modifies packer
    ensures packer.orderItems == ItemCopies(items) && packer.packageTypes == old(packer.packageTypes)
  {
    for i := 0 to |items|
      invariant packer.orderItems == ItemCopies(items[..i]) && packer.packageTypes == old(packer.packageTypes)
    {
      var quantity := Trunc(items[i].quantity);
      var copy := 0;
      while copy < quantity
        invariant 0 <= copy <= if quantity > 0 then quantity else 0
        invariant packer.orderItems == ItemCopies(items[..i]) + Copies(PackableItem(items[i]), copy)
        invariant packer.packageTypes == old(packer.packageTypes)
      {
        packer.AddOrderItem(items[i]);
        copy := copy + 1;
      }
      assert items[..i + 1][..i] == items[..i];
    }
    assert items[..|items|] == items;
  }

  /** The shipping method plugin: its settings, its service definitions and the shared API client. */
  class AusPost {
    const settings: Settings
    const definitions: OMap<Value>
    const client: Client

    constructor(settings: Settings, definitions: OMap<Value>, client: Client)
      ensures this.settings == settings && this.definitions == definitions && this.client == client
    {
      this.settings := settings;
      this.definitions := definitions;
      this.client := client;
    }

    /**
     * `calculateRates($shipment)`. The rates are the ones `Rates` gives
     * with the client cached before the call; the client keeps the
     * configured key and, from then on, builds the same SDK client.
     */
    method CalculateRates(shipment: Shipment) returns (r: Result<seq<ShippingRate>>)
      modifies client
      ensures r == Rates(settings, definitions, shipment, old(client.client), client.carrier)
      ensures !IsConfigured(settings.configuration) || ShippingAddress.IsEmpty(ShippingAddress.Address(shipment)) ==>
        client.apiKey == old(client.apiKey) && client.client == old(client.client)
      ensures IsConfigured(settings.configuration) && !ShippingAddress.IsEmpty(ShippingAddress.Address(shipment)) ==>
        client.apiKey == ApiKey(settings.configuration)
        && ClientFor(client.apiKey, client.client) == ClientFor(ApiKey(settings.configuration), old(client.client))
    {
      if !IsConfigured(settings.configuration) {
        return Err(NotConfigured);
      }
      var address := ShippingAddress.Address(shipment);
      if ShippingAddress.IsEmpty(address) {
        return Ok([]);
      }
      var key := ApiKey(settings.configuration);
      var keySet := client.SetApiKey(key);
      ghost var sdk := ClientFor(key, old(client.client)).value;
      ghost var rate := RateOf(settings, address, shipment, sdk, client.carrier);
      r := RatesOf(rate, sdk, address, shipment);
    }

    /** The loop over the service definitions. */
    method RatesOf(ghost rate: ServiceRates, ghost sdk: SdkClient, address: ShippingAddress.Address, shipment: Shipment)
      returns (r: Result<seq<ShippingRate>>)
      requires RatesAgree(rate, settings, address, shipment, sdk, client.carrier)
      requires ClientFor(client.apiKey, client.client) == Ok(sdk)
      modifies client
      ensures r == RatesFrom([], rate, definitions)
      ensures client.apiKey == old(client.apiKey) && ClientFor(client.apiKey, client.client) == Ok(sdk)
    {
      var rates: seq<ShippingRate> := [];
      for i := 0 to |definitions|
        invariant RatesFrom(rates, rate, definitions[i..]) == RatesFrom([], rate, definitions)
        invariant client.apiKey == old(client.apiKey) && ClientFor(client.apiKey, client.client) == Ok(sdk)
      {
        assert definitions[i..][0] == definitions[i] && definitions[i..][1..] == definitions[i + 1..];
        var next := ServiceRateOf(rate, sdk, address, shipment, definitions[i].0, definitions[i].1);
        if next.Err? {
          return Err(next.error);
        }
        if next.value.Some? {
          rates := rates + [next.value.value];
        }
      }
      assert definitions[|definitions|..] == [];
      r := Ok(rates);
    }

    /** One pass of the loop over service definitions. */
    method ServiceRateOf(ghost rate: ServiceRates, ghost sdk: SdkClient, address: ShippingAddress.Address, shipment: Shipment,
                         serviceId: string, serviceConfig: Value) returns (r: Result<Option<ShippingRate>>)
      requires RatesAgree(rate, settings, address, shipment, sdk, client.carrier)
      requires ClientFor(client.apiKey, client.client) == Ok(sdk)
      modifies client
      ensures r == rate(serviceId, serviceConfig)
      ensures client.apiKey == old(client.apiKey) && ClientFor(client.apiKey, client.client) == Ok(sdk)
    {
      assert rate(serviceId, serviceConfig) == ServiceRate(settings, address, shipment, sdk, client.carrier, serviceId, serviceConfig);
      if !ServiceEnabled(settings.configuration, serviceId) {
        return Ok(None);
      }
      var fields := Configure(serviceConfig);
      if fields.Err? {
        return Err(fields.error);
      }
      var types := EnabledPackageTypes(settings.packageTypes, settings.configuration, fields.value.destination);
      if types.Err? {
        return Err(types.error);
      }
      var packed := GetPackedBoxes(types.value, shipment.order.items, Interpolate(fields.value.destination),
                                   settings.algorithm, settings.validate);
      if packed.Err? {
        if packed.error.ItemTooLarge? {
          return Ok(None);
        }
        return Err(packed.error);
      }
      ghost var cost := CostOf(settings, address, shipment, fields.value, sdk, client.carrier);
      var total := BoxesTotalOf(cost, sdk, address, shipment, fields.value, packed.value);
      if total.Err? {
        return Err(total.error);
      }
      if total.value.None? {
        return Ok(None);
      }
      r := Ok(Some(ShippingRate(serviceId, ShippingService(fields.value.serviceId, fields.value.displayLabel),
                                Price(total.value.value, AudCurrencyCode))));
    }

    /** The loop over one service's packed boxes; a skipped box ends it (`continue 2`). */
    method BoxesTotalOf(ghost cost: BoxCosts, ghost sdk: SdkClient, address: ShippingAddress.Address, shipment: Shipment,
                        fields: Fields, boxes: seq<PackedBox>) returns (r: Result<Option<real>>)
      requires CostsAgree(cost, settings, address, shipment, fields, sdk, client.carrier)
      requires ClientFor(client.apiKey, client.client) == Ok(sdk)
      modifies client
      ensures r == BoxesTotal(0.0, cost, boxes)
      ensures client.apiKey == old(client.apiKey) && ClientFor(client.apiKey, client.client) == Ok(sdk)
    {
      var total := 0.0;
      for k := 0 to |boxes|
        invariant BoxesTotal(total, cost, boxes[k..]) == BoxesTotal(0.0, cost, boxes)
        invariant client.apiKey == old(client.apiKey) && ClientFor(client.apiKey, client.client) == Ok(sdk)
      {
        var c := BoxCostOf(cost, sdk, address, shipment, fields, boxes[k]);
        BoxesTotalStep(total, cost, boxes, k, c);
        if c.Err? {
          return Err(c.error);
        }
        if c.value.None? {
          return Ok(None);
        }
        total := total + c.value.value;
      }
      assert boxes[|boxes|..] == [];
      r := Ok(Some(total));
    }

    /**
     * One packed box: a fresh request, the client's call and the response's
     * postage, adjusted by the configured multiplier and rounding.
     */
    method BoxCostOf(ghost cost: BoxCosts, ghost sdk: SdkClient, address: ShippingAddress.Address, shipment: Shipment,
                     fields: Fields, box: PackedBox) returns (r: Result<Option<real>>)
      requires CostsAgree(cost, settings, address, shipment, fields, sdk, client.carrier)
      requires ClientFor(client.apiKey, client.client) == Ok(sdk)
      modifies client
      ensures r == cost(box)
      ensures client.apiKey == old(client.apiKey) && ClientFor(client.apiKey, client.client) == Ok(sdk)
    {
      assert cost(box) == BoxCost(settings, address, shipment, fields, sdk, client.carrier, box);
      var request := new Request(settings.weigher);
      request.SetAddress(address);
      request.SetShipment(shipment);
      request.SetPackedBox(box);
      var typed := request.SetPackageType(fields.serviceType);
      if typed.Err? {
        return Err(typed.error);
      }
      request.SetServiceDefinition(fields);
      assert request.State() == BoxRequest(address, shipment, box, fields).value;
      QuoteThroughClient(request.State(), settings.weigher, client.apiKey, client.client, sdk, client.carrier);
      var response := client.CalculatePostage(request);
      if response.Err? {
        if Caught(response.error) {
          return Ok(None);
        }
        return Err(response.error);
      }
      var postage := response.value.GetPostage();
      if postage.Err? {
        if Caught(postage.error) {
          return Ok(None);
        }
        return Err(postage.error);
      }
      r := Ok(Some(ModifiedPostageCost(postage.value, settings.configuration, settings.rounder)));
    }
  }
}
