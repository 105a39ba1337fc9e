/**
 * `PackableCommercePackageType`: a Commerce package type as a box for the
 * packer. It is checked when it is built: every required key must be
 * present and the size must pass the carrier's guidelines. Its getters
 * round up to whole millimetres and grams.
 */
module PackageTypes {
  import opened Wrappers
  import opened OrderedMaps
  import opened PhpValues
  import opened Units
  import opened ServiceEnums
  import opened ServiceDefinitions
  import ServiceSupport

  /** The keys a package type definition must have, in the order they are checked. */
  const RequiredKeys: seq<string> := [
    "label", "dimensions", "dimensions.length", "dimensions.width", "dimensions.height",
    "dimensions.unit", "weight", "weight.number", "weight.unit"]

  /** The second piece of `explode('.', $key)` once the first piece is cut off. */
  function SecondPiece(rest: string): string
  {
    match FirstIndexOf(rest, '.')
    case None => rest
    case Some(j) => rest[..j]
  }

  /**
   * `arrayValueExists($key, $array)`: a key without a dot is looked up at
   * the top level; otherwise the first two pieces of the key are looked up
   * one level apart, and a first piece holding a non-array counts as
   * missing.
   */
  predicate ArrayValueExists(key: string, a: OMap<Value>)
  {
    match FirstIndexOf(key, '.')
    case None => HasKey(a, key)
    case Some(i) =>
      HasKey(a, key[..i]) && Field(Arr(a), key[..i]).Arr? && HasKey(Field(Arr(a), key[..i]).items, SecondPiece(key[i + 1..]))
  }

  lemma PlainKeyExists(key: string, a: OMap<Value>)
    requires '.' !in key
    ensures ArrayValueExists(key, a) <==> HasKey(a, key)
  {
  }

  /** A one-dot key is a lookup two levels deep. */
  lemma DottedKeyExists(first: string, second: string, a: OMap<Value>)
    requires '.' !in first && '.' !in second
    ensures ArrayValueExists(first + "." + second, a) <==>
      HasKey(a, first) && Field(Arr(a), first).Arr? && HasKey(Field(Arr(a), first).items, second)
  {
    var key := first + "." + second;
    assert key[..|first|] == first && key[|first|] == '.';
    assert key[..|first|] == first;
    assert FirstIndexOf(key, '.') == Some(|first|);
    assert key[|first| + 1..] == second;
  }

  /** The first key of `keys` missing from `a`. */
  function FirstMissing(keys: seq<string>, a: OMap<Value>): (r: Option<string>)
    ensures r.None? <==> forall k :: k in keys ==> ArrayValueExists(k, a)
    ensures r.Some? ==> r.value in keys && !ArrayValueExists(r.value, a)
    decreases |keys|
  {
    if keys == [] then None
    else if !ArrayValueExists(keys[0], a) then Some(keys[0])
    else
      var r := FirstMissing(keys[1..], a);
      assert forall k :: k in keys <==> k == keys[0] || k in keys[1..];
      r
  }

  /** What `validatePackageSize()` does for a box: TRUE, FALSE, a PackageSizeException with its reason, or another exception. */
  datatype SizeCheck = Within | Exceeds | Rejected(reason: string) | Raised(failure: Failure)

  /**
   * `validatePackageSize($length, $width, $height, $destination)`, called on
   * the plugin's `ServiceSupport`, which does not define it: as written the
   * call raises an \Error (`ValidatorAsWritten`). The model takes the check
   * the call evidently means as a parameter.
   */
  type SizeValidator = (Length, Length, Length, string) -> SizeCheck

  /**
   * A package type that passed construction, with the three edges it
   * converted to millimetres while checking its size.
   */
  datatype PackageType = PackageType(
    definition: OMap<Value>,
    destination: string,
    widthMm: Length,
    lengthMm: Length,
    heightMm: Length)

  /** `getConvertedDimension($dimension, FALSE)`: the edge as a length in millimetres. */
  function Edge(definition: OMap<Value>, dimension: string): (r: Result<Length>)
    ensures r.Ok? ==> r.value.unit == Millimeter
    ensures r.Err? ==> r.error.InvalidArgument?
  {
    var dims := Field(Arr(definition), "dimensions");
    var l :- MakeLength(Field(dims, dimension), Field(dims, "unit"));
    Ok(ConvertLength(l, Millimeter))
  }

  /** `getReference()`: the label, rendered. */
  function Reference(definition: OMap<Value>): string
  {
    Interpolate(Field(Arr(definition), "label"))
  }

  function GuidelinesMessage(reference: string, reason: string): string
  {
    "Package type '" + reference + "' exceeds Australia Post's maximum size guidelines, see: "
      + "https://auspost.com.au/parcels-mail/postage-tips-guides/size-weight-guidelines. Reason: " + reason
  }

  function MissingKeyMessage(key: string): string
  {
    "Required package type value '" + key + "' does not exist."
  }

  /**
   * The constructor: the required keys first, then the size check through
   * `assertPackageMeetsGuidelines()`. A FALSE verdict or a
   * PackageSizeException becomes a ShipmentPackerException carrying the
   * reason; any other exception passes through.
   */
  function Construct(definition: OMap<Value>, destination: string, validate: SizeValidator): Result<PackageType>
  {
    match FirstMissing(RequiredKeys, definition)
    case Some(k) => Err(ShipmentPackerError(MissingKeyMessage(k)))
    case None =>
      var w :- Edge(definition, "width");
      var l :- Edge(definition, "length");
      var h :- Edge(definition, "height");
      AfterSizeCheck(PackageType(definition, destination, w, l, h), validate(l, w, h, destination))
  }

  /** `assertPackageMeetsGuidelines()` once the validator has answered. */
  function AfterSizeCheck(p: PackageType, verdict: SizeCheck): Result<PackageType>
  {
    match verdict
    case Within => Ok(p)
    case Exceeds => Err(ShipmentPackerError(GuidelinesMessage(Reference(p.definition), "")))
    case Rejected(reason) => Err(ShipmentPackerError(GuidelinesMessage(Reference(p.definition), reason)))
    case Raised(f) => Err(f)
  }

  /** The constructor's loop over the required keys: the first missing one, if any. */
  method CheckRequiredKeys(definition: OMap<Value>) returns (missing: Option<string>)
    ensures missing == FirstMissing(RequiredKeys, definition)
  {
    missing := FindMissing(RequiredKeys, definition);
  }

  /** The loop itself, over any list of keys. */
  method FindMissing(keys: seq<string>, definition: OMap<Value>) returns (missing: Option<string>)
    ensures missing == FirstMissing(keys, definition)
  {
    for i := 0 to |keys|
      invariant FirstMissing(keys[i..], definition) == FirstMissing(keys, definition)
    {
      if !ArrayValueExists(keys[i], definition) {
        return Some(keys[i]);
      }
      assert keys[i..][1..] == keys[i + 1..];
    }
    assert keys[|keys|..] == [];
    return None;
  }

  /** `new PackableCommercePackageType($support, $packageType, $destination)`. */
  method NewPackageType(definition: OMap<Value>, destination: string, validate: SizeValidator)
    returns (r: Result<PackageType>)
    ensures r == Construct(definition, destination, validate)
  {
    var missing := CheckRequiredKeys(definition);
    if missing.Some? {
      return Err(ShipmentPackerError(MissingKeyMessage(missing.value)));
    }
    var w := Edge(definition, "width");
    if w.Err? { return Err(w.error); }
    var l := Edge(definition, "length");
    if l.Err? { return Err(l.error); }
    var h := Edge(definition, "height");
    if h.Err? { return Err(h.error); }
    var verdict := validate(l.value, w.value, h.value, destination);
    var p := PackageType(definition, destination, w.value, l.value, h.value);
    match verdict {
      case Within => r := Ok(p);
      case Exceeds => r := Err(ShipmentPackerError(GuidelinesMessage(Reference(definition), "")));
      case Rejected(reason) => r := Err(ShipmentPackerError(GuidelinesMessage(Reference(definition), reason)));
      case Raised(f) => r := Err(f);
    }
  }

  /**
   * A missing key is reported before the size is looked at: whatever the
   * validator would say, construction fails naming the first missing key.
   */
  lemma MissingKeyFirst(definition: OMap<Value>, destination: string, validate: SizeValidator, k: string)
    requires k in RequiredKeys && !ArrayValueExists(k, definition)
    ensures Construct(definition, destination, validate).Err?
    ensures Construct(definition, destination, validate).error.ShipmentPackerError?
    ensures var m := FirstMissing(RequiredKeys, definition);
      m.Some? && Construct(definition, destination, validate) == Err(ShipmentPackerError(MissingKeyMessage(m.value)))
  {
  }

  /**
   * Construction succeeds exactly when every required key is present, the
   * three edges are valid lengths and the validator answers TRUE; the box
   * then keeps those edges.
   */
  lemma ConstructSucceeds(definition: OMap<Value>, destination: string, validate: SizeValidator)
    ensures var r := Construct(definition, destination, validate);
      r.Ok? <==> (&& FirstMissing(RequiredKeys, definition).None?
                  && Edge(definition, "width").Ok? && Edge(definition, "length").Ok? && Edge(definition, "height").Ok?
                  && validate(Edge(definition, "length").value, Edge(definition, "width").value,
                              Edge(definition, "height").value, destination) == Within)
    ensures var r := Construct(definition, destination, validate);
      r.Ok? ==> (&& r.value.definition == definition && r.value.destination == destination
                 && r.value.widthMm == Edge(definition, "width").value
                 && r.value.lengthMm == Edge(definition, "length").value
                 && r.value.heightMm == Edge(definition, "height").value)
  {
  }

  /** A size rejection surfaces as a ShipmentPackerException whose message ends with the reason. */
  lemma RejectionCarriesReason(definition: OMap<Value>, destination: string, validate: SizeValidator)
    requires FirstMissing(RequiredKeys, definition).None?
    requires Edge(definition, "width").Ok? && Edge(definition, "length").Ok? && Edge(definition, "height").Ok?
    requires validate(Edge(definition, "length").value, Edge(definition, "width").value,
                      Edge(definition, "height").value, destination).Rejected?
    ensures var reason := validate(Edge(definition, "length").value, Edge(definition, "width").value,
                                   Edge(definition, "height").value, destination).reason;
      var r := Construct(definition, destination, validate);
      && r.Err? && r.error.ShipmentPackerError?
      && |r.error.message| >= |reason| && r.error.message[|r.error.message| - |reason|..] == reason
  {
    var w, l, h := Edge(definition, "width").value, Edge(definition, "length").value, Edge(definition, "height").value;
    var reason := validate(l, w, h, destination).reason;
    assert Construct(definition, destination, validate)
      == AfterSizeCheck(PackageType(definition, destination, w, l, h), Rejected(reason));
    GuidelinesMessageEndsWithReason(Reference(definition), reason);
  }

  /**
   * The \Error PHP raises for `$this->serviceSupport->validatePackageSize()`:
   * the support object is a `ServiceSupport`, which neither defines the
   * method nor implements the interface that declares it.
   */
  const UndefinedSizeCheck: Failure := Fatal("Call to undefined method ServiceSupport::validatePackageSize()")

  /** The size check as written: every call raises `UndefinedSizeCheck`. */
  function ValidatorAsWritten(): SizeValidator
  {
    (l: Length, w: Length, h: Length, destination: string) => Raised(UndefinedSizeCheck)
  }

  /**
   * As written, no package type is ever built. A definition missing a
   * required key still fails with the ShipmentPackerException; any other
   * definition fails with a bad edge or with the \Error, which the
   * constructor's `catch (PackageSizeException)` does not handle.
   */
  lemma ConstructionFailsAsWritten(definition: OMap<Value>, destination: string)
    ensures var r := Construct(definition, destination, ValidatorAsWritten());
      && r.Err?
      && (r.error.ShipmentPackerError? <==> FirstMissing(RequiredKeys, definition).Some?)
      && (FirstMissing(RequiredKeys, definition).None? ==> r.error == UndefinedSizeCheck || r.error.InvalidArgument?)
      && ((&& FirstMissing(RequiredKeys, definition).None? && Edge(definition, "width").Ok?
           && Edge(definition, "length").Ok? && Edge(definition, "height").Ok?) ==> r.error == UndefinedSizeCheck)
  {
    if FirstMissing(RequiredKeys, definition).None? {
      var w, l, h := Edge(definition, "width"), Edge(definition, "length"), Edge(definition, "height");
      if w.Err? {
        assert Construct(definition, destination, ValidatorAsWritten()) == Err(w.error);
      } else if l.Err? {
        assert Construct(definition, destination, ValidatorAsWritten()) == Err(l.error);
      } else if h.Err? {
        assert Construct(definition, destination, ValidatorAsWritten()) == Err(h.error);
      } else {
        assert ValidatorAsWritten()(l.value, w.value, h.value, destination) == Raised(UndefinedSizeCheck);
        assert Construct(definition, destination, ValidatorAsWritten())
          == AfterSizeCheck(PackageType(definition, destination, w.value, l.value, h.value), Raised(UndefinedSizeCheck));
      }
    }
  }

  /** The guidelines message ends with the validator's reason. */
  lemma GuidelinesMessageEndsWithReason(reference: string, reason: string)
    ensures var m := GuidelinesMessage(reference, reason);
      |m| >= |reason| && m[|m| - |reason|..] == reason
  {
    var m := GuidelinesMessage(reference, reason);
    var prefix := m[..|m| - |reason|];
    assert m == prefix + reason;
  }

  /** `getInnerWidth()`: the width rounded up to whole millimetres. */
  function InnerWidth(p: PackageType): (r: int)
    ensures InMillimetres(p.widthMm) <= r as real < InMillimetres(p.widthMm) + 1.0
  {
    Ceil(InMillimetres(p.widthMm))
  }

  /** `getInnerLength()`. */
  function InnerLength(p: PackageType): (r: int)
    ensures InMillimetres(p.lengthMm) <= r as real < InMillimetres(p.lengthMm) + 1.0
  {
    Ceil(InMillimetres(p.lengthMm))
  }

  /** `getInnerDepth()`: depth is the package type's height. */
  function InnerDepth(p: PackageType): (r: int)
    ensures InMillimetres(p.heightMm) <= r as real < InMillimetres(p.heightMm) + 1.0
  {
    Ceil(InMillimetres(p.heightMm))
  }

  /** `getOuterWidth()`: Commerce has no wall thickness, so outer equals inner. */
  function OuterWidth(p: PackageType): (r: int)
    ensures r == InnerWidth(p)
  {
    InnerWidth(p)
  }

  /** `getOuterLength()`. */
  function OuterLength(p: PackageType): (r: int)
    ensures r == InnerLength(p)
  {
    InnerLength(p)
  }

  /** `getOuterDepth()`. */
  function OuterDepth(p: PackageType): (r: int)
    ensures r == InnerDepth(p)
  {
    InnerDepth(p)
  }

  /** `getEmptyWeight()`: the box's own weight rounded up to whole grams. */
  function EmptyWeight(p: PackageType): (r: Result<int>)
    ensures r.Ok? <==> MakeWeight(Field(Field(Arr(p.definition), "weight"), "number"), Field(Field(Arr(p.definition), "weight"), "unit")).Ok?
    ensures r.Ok? ==>
      var g := InGrams(MakeWeight(Field(Field(Arr(p.definition), "weight"), "number"), Field(Field(Arr(p.definition), "weight"), "unit")).value);
      g <= r.value as real < g + 1.0
  {
    var weight := Field(Arr(p.definition), "weight");
    var w :- MakeWeight(Field(weight, "number"), Field(weight, "unit"));
    Ok(Ceil(InGrams(w)))
  }

  /**
   * `getInnerVolume()` as written: the operands handed to bcmath are the
   * length objects themselves, whose string form ("<number> mm") is not a
   * number, and bcmath reads a malformed operand as 0.
   */
  function InnerVolumeAsWritten(p: PackageType): (r: int)
    ensures r == 0
  {
    BcVolume(0.0, 0.0, 0.0)
  }

  /** `getInnerVolume()` as intended: the millimetre numbers multiplied at scale 0. */
  function InnerVolume(p: PackageType): int
  {
    BcVolume(InMillimetres(p.widthMm), InMillimetres(p.lengthMm), InMillimetres(p.heightMm))
  }

  /**
   * The intended volume of a box with non-negative edges is at most the
   * product of its rounded-up edges; the as-written volume is 0 for every
   * box, so a 100 mm cube reports 0 instead of 1000000.
   */
  lemma InnerVolumeWithinEdges(p: PackageType)
    requires InMillimetres(p.widthMm) >= 0.0 && InMillimetres(p.lengthMm) >= 0.0 && InMillimetres(p.heightMm) >= 0.0
    ensures 0 <= InnerVolume(p) <= InnerWidth(p) * InnerLength(p) * InnerDepth(p)
  {
    TruncatedProductBound(InMillimetres(p.widthMm), InMillimetres(p.lengthMm), InMillimetres(p.heightMm));
  }

  lemma InnerVolumeAsWrittenLosesCube(p: PackageType)
    requires p.widthMm == p.lengthMm == p.heightMm == Length(100.0, Millimeter)
    ensures InnerVolume(p) == 1000000
    ensures InnerVolumeAsWritten(p) == 0
  {
    assert InMillimetres(p.widthMm) == 100.0;
    assert Trunc(100.0 * 100.0) == 10000;
    assert Trunc(100.0 * 10000.0) == 1000000;
  }

  /** The weight limit of a destination's parcels in grams, as `getMaxParcelDimensions()` gives it. */
  function LimitGrams(d: Destination): (g: real)
    ensures g == if d == Domestic then 22000.0 else 20000.0
  {
    var limits := ServiceSupport.GetMaxParcelDimensions(DestinationName(d));
    assert limits == Ok(MaxParcelDimensions(d)) by {
      assert DestinationName(d) in ServiceSupport.SupportedDestinations();
    }
    InGrams(ConvertWeight(limits.value.weight, Gram))
  }

  /**
   * `getMaxWeight()` as written: it tests a property `isDomestic` that the
   * class never assigns, which reads as NULL, so every box gets the
   * international limit.
   */
  function MaxWeightAsWritten(p: PackageType): (g: real)
    ensures g == LimitGrams(International)
  {
    var isDomestic := false;
    if isDomestic then LimitGrams(Domestic) else LimitGrams(International)
  }

  /** `getMaxWeight()` as intended: the limit of the box's own destination. */
  function MaxWeight(p: PackageType): (g: real)
    ensures g == if p.destination == DestinationName(Domestic) then 22000.0 else 20000.0
  {
    if p.destination == DestinationName(Domestic) then LimitGrams(Domestic) else LimitGrams(International)
  }

  /** A domestic box may carry 22 kg, but as written it is limited to 20 kg. */
  lemma DomesticBoxUnderweighted(p: PackageType)
    requires p.destination == "domestic"
    ensures MaxWeight(p) == 22000.0
    ensures MaxWeightAsWritten(p) == 20000.0
  {
  }
}
