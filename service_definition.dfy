/**
 * `AbstractServiceDefinition`: a service-definition plugin instance built
 * from its configuration through validating setters. Property values are
 * kept as PHP values, since the setters that do not validate store whatever
 * they are given.
 */
module ServiceDefinition {
  import opened Wrappers
  import opened OrderedMaps
  import opened PhpValues
  import opened ServiceEnums
  import opened Units

  /** The plugin's properties, in declaration order. */
  datatype Fields = Fields(
    serviceId: Value,
    displayLabel: Value,
    destination: Value,
    serviceType: Value,
    serviceCode: Value,
    optionCode: Value,
    subOptionCode: Value,
    extraCover: Value,
    maxDimensions: OMap<Value>)

  /** The properties before any setter runs: extra cover 0, no dimensions. */
  const InitialFields: Fields := Fields(Null, Null, Null, Null, Null, Null, Null, Int(0), [])

  /** The setters the constructor calls. */
  datatype Setter =
    | SetLabel | SetServiceId | SetDestination | SetServiceType | SetServiceCode
    | SetOptionCode | SetSubOptionCode | SetExtraCover | SetMaxDimensions

  /** The keys `setMaxDimensions` insists on, in the order it checks them. */
  const RequiredDimensionKeys: seq<string> := ["height", "width", "length", "weight"]

  /** The first required dimension key `dims` lacks. */
  function MissingDimension(dims: OMap<Value>): (r: Option<string>)
    ensures r.None? <==> forall k :: k in RequiredDimensionKeys ==> HasKey(dims, k)
    ensures r.Some? ==> r.value in RequiredDimensionKeys && !HasKey(dims, r.value)
  {
    if !HasKey(dims, "height") then Some("height")
    else if !HasKey(dims, "width") then Some("width")
    else if !HasKey(dims, "length") then Some("length")
    else if !HasKey(dims, "weight") then Some("weight")
    else None
  }

  /**
   * The effect of one setter on the properties: the validating setters
   * reject a value their enumeration does not hold, `setMaxDimensions`
   * rejects a non-array (a PHP type error) or an array missing a required
   * key, and every other setter stores its argument.
   */
  function Apply(f: Fields, s: Setter, v: Value): (r: Result<Fields>)
    ensures r.Ok? <==> match s
      case SetDestination => AssertDestination(v).Ok?
      case SetServiceType => AssertServiceType(v).Ok?
      case SetServiceCode => AssertServiceCode(v).Ok?
      case SetOptionCode => AssertServiceOption(v).Ok?
      case SetSubOptionCode => AssertServiceOption(v).Ok?
      case SetMaxDimensions => v.Arr? && MissingDimension(v.items).None?
      case _ => true
    ensures r.Ok? ==> r.value == match s
      case SetLabel => f.(displayLabel := v)
      case SetServiceId => f.(serviceId := v)
      case SetDestination => f.(destination := v)
      case SetServiceType => f.(serviceType := v)
      case SetServiceCode => f.(serviceCode := v)
      case SetOptionCode => f.(optionCode := v)
      case SetSubOptionCode => f.(subOptionCode := v)
      case SetExtraCover => f.(extraCover := v)
      case SetMaxDimensions => f.(maxDimensions := v.items)
    ensures s == SetMaxDimensions && v.Arr? && MissingDimension(v.items).Some? ==>
      r == Err(InvalidArgument("Required dimension key '" + MissingDimension(v.items).value + "' not provided."))
  {
    match s
    case SetLabel => Ok(f.(displayLabel := v))
    case SetServiceId => Ok(f.(serviceId := v))
    case SetDestination =>
      var _ :- AssertDestination(v);
      Ok(f.(destination := v))
    case SetServiceType =>
      var _ :- AssertServiceType(v);
      Ok(f.(serviceType := v))
    case SetServiceCode =>
      var _ :- AssertServiceCode(v);
      Ok(f.(serviceCode := v))
    case SetOptionCode =>
      var _ :- AssertServiceOption(v);
      Ok(f.(optionCode := v))
    case SetSubOptionCode =>
      var _ :- AssertServiceOption(v);
      Ok(f.(subOptionCode := v))
    case SetExtraCover => Ok(f.(extraCover := v))
    case SetMaxDimensions =>
      if !v.Arr? then Err(Fatal("setMaxDimensions(): Argument #1 must be of type array"))
      else match MissingDimension(v.items)
        case Some(k) => Err(InvalidArgument("Required dimension key '" + k + "' not provided."))
        case None => Ok(f.(maxDimensions := v.items))
  }

  /** The configuration keys the constructor applies only when non-empty, with their setters. */
  const OptionalVars: seq<(string, Setter)> := [
    ("option_code", SetOptionCode),
    ("sub_option_code", SetSubOptionCode),
    ("extra_cover", SetExtraCover),
    ("max_dimensions", SetMaxDimensions)]

  /** The optional setters from `vars` on, each skipped when its configuration value is empty. */
  function ApplyOptional(f: Fields, config: Value, vars: seq<(string, Setter)>): Result<Fields>
    decreases |vars|
  {
    if vars == [] then Ok(f)
    else
      var (name, setter) := vars[0];
      if Empty(Field(config, name)) then ApplyOptional(f, config, vars[1..])
      else
        var f' :- Apply(f, setter, Field(config, name));
        ApplyOptional(f', config, vars[1..])
  }

  /**
   * The properties the constructor leaves: label, service id, destination,
   * type and code set in that order, then the optional ones; the first
   * rejected value ends construction with its exception.
   */
  function Configure(config: Value): Result<Fields>
  {
    var f5 :- ConfigureRequired(config);
    ApplyOptional(f5, config, OptionalVars)
  }

  /** The five setters the constructor always runs, in order. */
  function ConfigureRequired(config: Value): Result<Fields>
  {
    var f1 :- Apply(InitialFields, SetLabel, Field(config, "label"));
    var f2 :- Apply(f1, SetServiceId, Field(config, "service_id"));
    var f3 :- Apply(f2, SetDestination, Field(config, "destination"));
    var f4 :- Apply(f3, SetServiceType, Field(config, "service_type"));
    Apply(f4, SetServiceCode, Field(config, "service_code"))
  }

  /** The optional steps touch only option, sub-option, extra cover and dimensions. */
  lemma {:induction false} ApplyOptionalKeepsRequired(f: Fields, config: Value, vars: seq<(string, Setter)>)
    requires forall i :: 0 <= i < |vars| ==> vars[i].1 in {SetOptionCode, SetSubOptionCode, SetExtraCover, SetMaxDimensions}
    ensures var r := ApplyOptional(f, config, vars);
      r.Ok? ==> (&& r.value.displayLabel == f.displayLabel && r.value.serviceId == f.serviceId
                 && r.value.destination == f.destination && r.value.serviceType == f.serviceType
                 && r.value.serviceCode == f.serviceCode)
    decreases |vars|
  {
    if vars != [] {
      var (name, setter) := vars[0];
      assert vars[1..] == vars[1..];
      forall i | 0 <= i < |vars[1..]| ensures vars[1..][i].1 in {SetOptionCode, SetSubOptionCode, SetExtraCover, SetMaxDimensions} {
        assert vars[1..][i] == vars[i + 1];
      }
      if Empty(Field(config, name)) {
        ApplyOptionalKeepsRequired(f, config, vars[1..]);
      } else if Apply(f, setter, Field(config, name)).Ok? {
        ApplyOptionalKeepsRequired(Apply(f, setter, Field(config, name)).value, config, vars[1..]);
      }
    }
  }

  /**
   * A constructed definition has a known destination, type and service
   * code, exactly as configured; an unknown one makes construction fail
   * with \InvalidArgumentException.
   */
  lemma ConfigureValidates(config: Value)
    ensures Configure(config).Ok? ==>
      && AssertDestination(Field(config, "destination")).Ok?
      && AssertServiceType(Field(config, "service_type")).Ok?
      && AssertServiceCode(Field(config, "service_code")).Ok?
      && Configure(config).value.destination == Field(config, "destination")
      && Configure(config).value.serviceType == Field(config, "service_type")
      && Configure(config).value.serviceCode == Field(config, "service_code")
      && Configure(config).value.displayLabel == Field(config, "label")
      && Configure(config).value.serviceId == Field(config, "service_id")
    ensures (AssertDestination(Field(config, "destination")).Err?
      || AssertServiceType(Field(config, "service_type")).Err?
      || AssertServiceCode(Field(config, "service_code")).Err?) ==>
      Configure(config).Err? && Configure(config).error.InvalidArgument?
  {
    RequiredValidates(config);
    var r := ConfigureRequired(config);
    if r.Ok? {
      ApplyOptionalKeepsRequired(r.value, config, OptionalVars);
    }
  }

  /** The required setters accept exactly a known destination, type and code, and store all five values. */
  lemma RequiredValidates(config: Value)
    ensures var r := ConfigureRequired(config);
      r.Ok? <==> (&& AssertDestination(Field(config, "destination")).Ok?
                  && AssertServiceType(Field(config, "service_type")).Ok?
                  && AssertServiceCode(Field(config, "service_code")).Ok?)
    ensures var r := ConfigureRequired(config);
      r.Ok? ==> (&& r.value.destination == Field(config, "destination")
                 && r.value.serviceType == Field(config, "service_type")
                 && r.value.serviceCode == Field(config, "service_code")
                 && r.value.displayLabel == Field(config, "label")
                 && r.value.serviceId == Field(config, "service_id"))
    ensures ConfigureRequired(config).Err? ==> ConfigureRequired(config).error.InvalidArgument?
  {
    var f2 := Apply(Apply(InitialFields, SetLabel, Field(config, "label")).value, SetServiceId, Field(config, "service_id")).value;
    assert f2.displayLabel == Field(config, "label") && f2.serviceId == Field(config, "service_id");
  }

  /**
   * Empty optional configuration leaves the defaults: no option codes,
   * extra cover 0 and no dimensions.
   */
  lemma ConfigureDefaults(config: Value)
    requires Empty(Field(config, "option_code")) && Empty(Field(config, "sub_option_code"))
    requires Empty(Field(config, "extra_cover")) && Empty(Field(config, "max_dimensions"))
    ensures Configure(config).Ok? ==>
      && Configure(config).value.optionCode == Null
      && Configure(config).value.subOptionCode == Null
      && Configure(config).value.extraCover == Int(0)
      && Configure(config).value.maxDimensions == []
  {
  }

  /** A measurement as `getMaxDimensions()` returns it: a raw value, a length or a weight. */
  datatype Measure = Raw(v: Value) | LengthOf(length: Length) | WeightOf(weight: Weight)

  /** The stored dimensions, each value still raw. */
  function RawDimensions(dims: OMap<Value>): (r: OMap<Measure>)
    ensures |r| == |dims|
  {
    MapValues(dims, (k: string, v: Value) => Raw(v))
  }

  /** The dimensions `getMaxDimensions()` turns into lengths in millimetres. */
  const LengthProps: seq<string> := ["height", "width", "length"]

  /** The length loop of `getMaxDimensions()` from `props` on. */
  function WrapLengths(acc: OMap<Measure>, dims: OMap<Value>, props: seq<string>): Result<OMap<Measure>>
    decreases |props|
  {
    if props == [] then Ok(acc)
    else
      var l :- MakeLength(Field(Arr(dims), props[0]), Str("mm"));
      WrapLengths(Put(acc, props[0], LengthOf(l)), dims, props[1..])
  }

  /**
   * `getMaxDimensions()`: nothing when no dimensions are set; otherwise
   * the stored array with weight as a weight in grams and height, width
   * and length as lengths in millimetres, failing as the measurement
   * constructors do on a non-numeric value.
   */
  function MaxDimensionsOf(dims: OMap<Value>): Result<OMap<Measure>>
  {
    if dims == [] then Ok([])
    else
      var w :- MakeWeight(Field(Arr(dims), "weight"), Str("g"));
      WrapLengths(Put(RawDimensions(dims), "weight", WeightOf(w)), dims, LengthProps)
  }

  /** Numeric value of dimension `k`, when it has one. */
  function DimensionNumber(dims: OMap<Value>, k: string): Option<real>
  {
    NumberOf(Field(Arr(dims), k))
  }

  /** The raw copy has the same keys and, under each, the stored value. */
  lemma {:induction false} RawDimensionsGet(dims: OMap<Value>, k: string)
    ensures Keys(RawDimensions(dims)) == Keys(dims)
    ensures Get(RawDimensions(dims), k) == if HasKey(dims, k) then Some(Raw(Get(dims, k).value)) else None
  {
    var raw := RawDimensions(dims);
    forall i | 0 <= i < |dims| ensures raw[i] == (dims[i].0, Raw(dims[i].1)) {
      MapValuesAt(dims, (k: string, v: Value) => Raw(v), i);
    }
    assert Keys(raw) == Keys(dims);
    if HasKey(dims, k) {
      var i := IndexOf(dims, k);
      IndexOfIs(raw, k, i);
    }
  }

  /** What the length loop leaves: each prop a length in millimetres, every other key untouched. */
  lemma {:induction false} WrapLengthsFacts(acc: OMap<Measure>, dims: OMap<Value>, props: seq<string>)
    ensures WrapLengths(acc, dims, props).Ok? <==> forall k :: k in props ==> DimensionNumber(dims, k).Some?
    ensures var r := WrapLengths(acc, dims, props);
      r.Ok? ==> (&& (forall k :: k in props ==> Get(r.value, k) == Some(LengthOf(Length(DimensionNumber(dims, k).value, Millimeter))))
                 && (forall k :: k !in props ==> Get(r.value, k) == Get(acc, k))
                 && ((forall k :: k in props ==> HasKey(acc, k)) ==> Keys(r.value) == Keys(acc)))
    decreases |props|
  {
    if props != [] {
      var l := MakeLength(Field(Arr(dims), props[0]), Str("mm"));
      if l.Ok? {
        assert l.value.unit == Millimeter;
        var acc' := Put(acc, props[0], LengthOf(l.value));
        assert WrapLengths(acc, dims, props) == WrapLengths(acc', dims, props[1..]);
        WrapLengthsFacts(acc', dims, props[1..]);
        assert forall k :: k in props <==> k == props[0] || k in props[1..];
      } else {
        assert DimensionNumber(dims, props[0]).None?;
      }
    }
  }

  /** `getMaxDimensions()` on stored dimensions succeeds exactly when all four are numeric. */
  lemma MaxDimensionsSucceeds(dims: OMap<Value>)
    requires dims != []
    ensures MaxDimensionsOf(dims).Ok? <==> forall k :: k in RequiredDimensionKeys ==> DimensionNumber(dims, k).Some?
  {
    var w := MakeWeight(Field(Arr(dims), "weight"), Str("g"));
    assert forall k :: k in RequiredDimensionKeys <==> k == "weight" || k in LengthProps;
    assert ParseWeightUnit("g") == Some(Gram);
    if w.Err? {
      assert DimensionNumber(dims, "weight").None?;
    } else {
      var acc := Put(RawDimensions(dims), "weight", WeightOf(w.value));
      assert MaxDimensionsOf(dims) == WrapLengths(acc, dims, LengthProps);
      WrapLengthsFacts(acc, dims, LengthProps);
    }
  }

  /**
   * `getMaxDimensions()` on dimensions `setMaxDimensions()` accepted keeps
   * every key in place, makes the weight grams and the three edges
   * millimetres, and passes any other entry through unchanged.
   */
  lemma MaxDimensionsShape(dims: OMap<Value>)
    requires dims != [] && MissingDimension(dims).None? && MaxDimensionsOf(dims).Ok?
    ensures forall k :: k in RequiredDimensionKeys ==> DimensionNumber(dims, k).Some?
    ensures Keys(MaxDimensionsOf(dims).value) == Keys(dims)
    ensures Get(MaxDimensionsOf(dims).value, "weight") == Some(WeightOf(Weight(DimensionNumber(dims, "weight").value, Gram)))
    ensures forall k :: k in LengthProps ==>
      Get(MaxDimensionsOf(dims).value, k) == Some(LengthOf(Length(DimensionNumber(dims, k).value, Millimeter)))
    ensures forall k :: k !in RequiredDimensionKeys ==>
      Get(MaxDimensionsOf(dims).value, k) == if HasKey(dims, k) then Some(Raw(Get(dims, k).value)) else None
  {
    MaxDimensionsSucceeds(dims);
    assert "weight" in RequiredDimensionKeys;
    assert forall k :: k in LengthProps ==> k in RequiredDimensionKeys;
    MaxDimensionsKeys(dims);
    MaxDimensionsWeight(dims);
    MaxDimensionsLengths(dims);
    MaxDimensionsRest(dims);
  }

  /** The accumulator `getMaxDimensions()` builds before wrapping the edges. */
  function WeightedDimensions(dims: OMap<Value>): OMap<Measure>
    requires MakeWeight(Field(Arr(dims), "weight"), Str("g")).Ok?
  {
    Put(RawDimensions(dims), "weight", WeightOf(MakeWeight(Field(Arr(dims), "weight"), Str("g")).value))
  }

  /** `getMaxDimensions()` keeps the keys of the accepted dimensions, in order. */
  lemma MaxDimensionsKeys(dims: OMap<Value>)
    requires dims != [] && MissingDimension(dims).None? && MaxDimensionsOf(dims).Ok?
    ensures Keys(MaxDimensionsOf(dims).value) == Keys(dims)
  {
    MaxDimensionsSucceeds(dims);
    var acc := WeightedDimensions(dims);
    assert MaxDimensionsOf(dims) == WrapLengths(acc, dims, LengthProps);
    WrapLengthsFacts(acc, dims, LengthProps);
    RawDimensionsGet(dims, "weight");
    forall k | k in LengthProps ensures HasKey(acc, k) {
      RawDimensionsGet(dims, k);
    }
  }

  /** The weight comes back as a weight in grams. */
  lemma MaxDimensionsWeight(dims: OMap<Value>)
    requires dims != [] && MissingDimension(dims).None? && MaxDimensionsOf(dims).Ok?
    requires DimensionNumber(dims, "weight").Some?
    ensures Get(MaxDimensionsOf(dims).value, "weight") == Some(WeightOf(Weight(DimensionNumber(dims, "weight").value, Gram)))
  {
    MaxDimensionsSucceeds(dims);
    var w := MakeWeight(Field(Arr(dims), "weight"), Str("g"));
    var acc := WeightedDimensions(dims);
    assert MaxDimensionsOf(dims) == WrapLengths(acc, dims, LengthProps);
    WrapLengthsFacts(acc, dims, LengthProps);
    assert "weight" !in LengthProps;
    assert w.value.unit == Gram;
  }

  /** The three edges come back as lengths in millimetres. */
  lemma MaxDimensionsLengths(dims: OMap<Value>)
    requires dims != [] && MissingDimension(dims).None? && MaxDimensionsOf(dims).Ok?
    requires forall k :: k in LengthProps ==> DimensionNumber(dims, k).Some?
    ensures forall k :: k in LengthProps ==>
      Get(MaxDimensionsOf(dims).value, k) == Some(LengthOf(Length(DimensionNumber(dims, k).value, Millimeter)))
  {
    MaxDimensionsSucceeds(dims);
    var acc := WeightedDimensions(dims);
    assert MaxDimensionsOf(dims) == WrapLengths(acc, dims, LengthProps);
    WrapLengthsFacts(acc, dims, LengthProps);
  }

  /** Any other entry passes through unwrapped. */
  lemma MaxDimensionsRest(dims: OMap<Value>)
    requires dims != [] && MissingDimension(dims).None? && MaxDimensionsOf(dims).Ok?
    ensures forall k :: k !in RequiredDimensionKeys ==>
      Get(MaxDimensionsOf(dims).value, k) == if HasKey(dims, k) then Some(Raw(Get(dims, k).value)) else None
  {
    MaxDimensionsSucceeds(dims);
    var acc := WeightedDimensions(dims);
    assert MaxDimensionsOf(dims) == WrapLengths(acc, dims, LengthProps);
    WrapLengthsFacts(acc, dims, LengthProps);
    forall k | k !in RequiredDimensionKeys
      ensures Get(MaxDimensionsOf(dims).value, k) == if HasKey(dims, k) then Some(Raw(Get(dims, k).value)) else None
    {
      assert k !in LengthProps && k != "weight";
      RawDimensionsGet(dims, k);
    }
  }

  /** `array_filter()` without a callback: an entry is kept when its value is not empty. */
  predicate NonEmptyEntry(e: (string, Value))
  {
    !Empty(e.1)
  }

  /** `getAllOptions()`: the option and sub-option codes, dropping empty ones. */
  function AllOptions(f: Fields): (r: OMap<Value>)
    ensures HasKey(r, "option_code") <==> !Empty(f.optionCode)
    ensures HasKey(r, "sub_opt_code") <==> !Empty(f.subOptionCode)
    ensures forall k :: HasKey(r, k) ==> k in {"option_code", "sub_opt_code"}
    ensures !Empty(f.optionCode) ==> Get(r, "option_code") == Some(f.optionCode)
    ensures !Empty(f.subOptionCode) ==> Get(r, "sub_opt_code") == Some(f.subOptionCode)
  {
    var options := [("option_code", f.optionCode), ("sub_opt_code", f.subOptionCode)];
    FilterPair(options[0], options[1], NonEmptyEntry);
    OptionPairFacts(f.optionCode, f.subOptionCode);
    Filter(options, NonEmptyEntry)
  }

  /** Lookups in the options that survive the filter. */
  lemma OptionPairFacts(oc: Value, so: Value)
    ensures var r: OMap<Value> := (if Empty(oc) then [] else [("option_code", oc)]) + (if Empty(so) then [] else [("sub_opt_code", so)]);
      && (HasKey(r, "option_code") <==> !Empty(oc))
      && (HasKey(r, "sub_opt_code") <==> !Empty(so))
      && (forall k :: HasKey(r, k) ==> k in {"option_code", "sub_opt_code"})
      && (!Empty(oc) ==> Get(r, "option_code") == Some(oc))
      && (!Empty(so) ==> Get(r, "sub_opt_code") == Some(so))
  {
    var r: OMap<Value> := (if Empty(oc) then [] else [("option_code", oc)]) + (if Empty(so) then [] else [("sub_opt_code", so)]);
    assert "option_code"[1] != "sub_opt_code"[1];
    assert Keys(r) == (if Empty(oc) then [] else ["option_code"]) + (if Empty(so) then [] else ["sub_opt_code"]);
    if !Empty(oc) {
      IndexOfIs(r, "option_code", 0);
    }
    if !Empty(so) {
      IndexOfIs(r, "sub_opt_code", |r| - 1);
    }
  }

  /**
   * The plugin instance. Its properties are updated in place by the
   * setters; `State()` reads them back as one value.
   */
  class AbstractServiceDefinition {
    var serviceId: Value
    var displayLabel: Value
    var destination: Value
    var serviceType: Value
    var serviceCode: Value
    var optionCode: Value
    var subOptionCode: Value
    var extraCover: Value
    var maxDimensions: OMap<Value>

    function State(): Fields
      reads this
    {
      Fields(serviceId, displayLabel, destination, serviceType, serviceCode, optionCode, subOptionCode, extraCover, maxDimensions)
    }

    /** The properties as declared, before the constructor's setters run. */
    constructor Blank()
      ensures State() == InitialFields
    {
      serviceId, displayLabel, destination, serviceType, serviceCode := Null, Null, Null, Null, Null;
      optionCode, subOptionCode, extraCover, maxDimensions := Null, Null, Int(0), [];
    }

    /**
     * One setter: on success the properties become those `Apply` gives;
     * on failure they are left as they were and the exception is returned.
     */
    method Set(s: Setter, v: Value) returns (r: Result<()>)
      modifies this
      ensures r.Ok? <==> Apply(old(State()), s, v).Ok?
      ensures r.Ok? ==> State() == Apply(old(State()), s, v).value
      ensures r.Err? ==> unchanged(this) && r.error == Apply(old(State()), s, v).error
    {
      var f := Apply(State(), s, v);
      if f.Err? {
        return Err(f.error);
      }
      serviceId, displayLabel, destination, serviceType, serviceCode := f.value.serviceId, f.value.displayLabel, f.value.destination, f.value.serviceType, f.value.serviceCode;
      optionCode, subOptionCode, extraCover, maxDimensions := f.value.optionCode, f.value.subOptionCode, f.value.extraCover, f.value.maxDimensions;
      r := Ok(());
    }

    /**
     * `new static($configuration, ...)`: the required setters in order,
     * then each optional one whose configuration value is non-empty.
     */
    static method Create(config: Value) returns (r: Result<AbstractServiceDefinition>)
      ensures r.Ok? <==> Configure(config).Ok?
      ensures r.Ok? ==> fresh(r.value) && r.value.State() == Configure(config).value
      ensures r.Err? ==> r.error == Configure(config).error
    {
      var d := new AbstractServiceDefinition.Blank();
      var step := d.SetRequired(config);
      if step.Err? { return Err(step.error); }
      for i := 0 to |OptionalVars|
        invariant fresh(d)
        invariant ApplyOptional(d.State(), config, OptionalVars[i..]) == Configure(config)
      {
        var (name, setter) := OptionalVars[i];
        assert OptionalVars[i..][1..] == OptionalVars[i + 1..];
        if !Empty(Field(config, name)) {
          step := d.Set(setter, Field(config, name));
          if step.Err? { return Err(step.error); }
        }
      }
      return Ok(d);
    }

    /** The constructor's required setters, run on the declared defaults. */
    method SetRequired(config: Value) returns (r: Result<()>)
      requires State() == InitialFields
      modifies this
      ensures r.Ok? <==> ConfigureRequired(config).Ok?
      ensures r.Ok? ==> State() == ConfigureRequired(config).value
      ensures r.Err? ==> r.error == ConfigureRequired(config).error
    {
      r := Set(SetLabel, Field(config, "label"));
      r := Set(SetServiceId, Field(config, "service_id"));
      r := Set(SetDestination, Field(config, "destination"));
      if r.Err? { return; }
      r := Set(SetServiceType, Field(config, "service_type"));
      if r.Err? { return; }
      r := Set(SetServiceCode, Field(config, "service_code"));
    }

    /** `getMaxDimensions()`: the weight first, then the loop over the lengths. */
    method GetMaxDimensions() returns (r: Result<OMap<Measure>>)
      ensures r == MaxDimensionsOf(maxDimensions)
    {
      var dims := maxDimensions;
      if dims == [] {
        return Ok([]);
      }
      var w := MakeWeight(Field(Arr(dims), "weight"), Str("g"));
      if w.Err? {
        return Err(w.error);
      }
      var acc := Put(RawDimensions(dims), "weight", WeightOf(w.value));
      for i := 0 to |LengthProps|
        invariant WrapLengths(acc, dims, LengthProps[i..]) == MaxDimensionsOf(dims)
      {
        var prop := LengthProps[i];
        assert LengthProps[i..][1..] == LengthProps[i + 1..];
        var l := MakeLength(Field(Arr(dims), prop), Str("mm"));
        if l.Err? {
          return Err(l.error);
        }
        acc := Put(acc, prop, LengthOf(l.value));
      }
      return Ok(acc);
    }
  }
}
