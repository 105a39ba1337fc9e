/**
 * `ServiceDefinitionDeriver`: turns each entry of the default catalogue into
 * a plugin definition, accumulating them in the deriver's `derivatives`
 * field. Catalogue entries and plugin definitions are PHP arrays here.
 */
module Deriver {
  import opened Wrappers
  import opened OrderedMaps
  import opened PhpValues
  import ServiceDefinitionDefaults

  /** `PluginBase::DERIVATIVE_SEPARATOR`. */
  const DerivativeSeparator: string := ":"

  /** The keys a `max_dimensions` array must have to be copied. */
  const DimensionKeys: seq<string> := ["length", "width", "height", "weight"]

  /** `array_key_exists($k, $a)` on a value: only an array has keys. */
  predicate KeyExists(a: Value, k: string)
  {
    a.Arr? && HasKey(a.items, k)
  }

  /** `dims` has every key of `DimensionKeys`. */
  predicate HasAllDimensions(dims: Value)
  {
    forall k :: k in DimensionKeys ==> KeyExists(dims, k)
  }

  /** The fields every derivative gets, read from the catalogue entry `service`. */
  function EntryFields(baseId: string, key: string, service: Value): OMap<Value>
  {
    [
      ("id", Str(baseId + DerivativeSeparator + key)),
      ("service_id", Str(key)),
      ("label", Field(service, "description")),
      ("destination", Field(service, "destination")),
      ("service_type", Field(service, "type")),
      ("service_code", Field(service, "service_code")),
      ("option_code", Field(service, "option_code")),
      ("sub_option_code", Field(service, "sub_option_code")),
      ("extra_cover", Field(service, "extra_cover"))]
  }

  /** The definition for one entry before the base definition is merged in. */
  function Derivative(baseId: string, key: string, service: Value): OMap<Value>
  {
    var fields := EntryFields(baseId, key, service);
    if KeyExists(service, "max_dimensions") && HasAllDimensions(Field(service, "max_dimensions"))
    then fields + [("max_dimensions", Field(service, "max_dimensions"))]
    else fields
  }

  /** The finished definition: the derivative, then the base definition's other keys (`+=`). */
  function Definition(baseId: string, key: string, service: Value, base: OMap<Value>): OMap<Value>
  {
    Union(Derivative(baseId, key, service), base)
  }

  /** The finished definition for each entry key and entry. */
  function DefinitionOf(baseId: string, base: OMap<Value>): (string, Value) -> Value
  {
    (key: string, service: Value) => Arr(Definition(baseId, key, service, base))
  }

  /** The derivatives after visiting `entries` in order, starting from `acc`. */
  function Derive(acc: OMap<Value>, baseId: string, entries: OMap<Value>, base: OMap<Value>): OMap<Value>
  {
    PutAll(acc, entries, DefinitionOf(baseId, base))
  }

  /**
   * The `$validDimension` loop: true until a key of `DimensionKeys` is
   * missing from `dims`, where it stops.
   */
  method HasDimensionKeys(dims: Value) returns (validDimension: bool)
    ensures validDimension <==> HasAllDimensions(dims)
  {
    validDimension := true;
    var j := 0;
    while j < |DimensionKeys|
      invariant 0 <= j <= |DimensionKeys|
      invariant forall m :: 0 <= m < j ==> KeyExists(dims, DimensionKeys[m])
    {
      if !KeyExists(dims, DimensionKeys[j]) {
        validDimension := false;
        break;
      }
      j := j + 1;
    }
  }

  /** The body of the deriver's loop for one entry: its fields, the checked dimensions, then `+=`. */
  method BuildDefinition(baseId: string, key: string, service: Value, base: OMap<Value>) returns (derivative: OMap<Value>)
    ensures Arr(derivative) == DefinitionOf(baseId, base)(key, service)
  {
    derivative := EntryFields(baseId, key, service);
    if KeyExists(service, "max_dimensions") {
      var validDimension := HasDimensionKeys(Field(service, "max_dimensions"));
      if validDimension {
        derivative := derivative + [("max_dimensions", Field(service, "max_dimensions"))];
      }
    }
    assert derivative == Derivative(baseId, key, service);
    derivative := Union(derivative, base);
  }

  class ServiceDefinitionDeriver {
    var derivatives: OMap<Value>

    constructor()
      ensures derivatives == []
    {
      derivatives := [];
    }

    /**
     * `getDerivativeDefinitions($basePluginDefinition)` over the given
     * default catalogue: one definition per entry, stored under the entry's
     * key in `derivatives`, which is also returned.
     */
    method GetDerivativeDefinitions(base: OMap<Value>, defaults: OMap<Value>) returns (r: OMap<Value>)
      modifies this
      ensures derivatives == Derive(old(derivatives), Interpolate(Field(Arr(base), "id")), defaults, base)
      ensures r == derivatives
    {
      var baseId := Interpolate(Field(Arr(base), "id"));
      ghost var f := DefinitionOf(baseId, base);
      var i := 0;
      while i < |defaults|
        invariant 0 <= i <= |defaults|
        invariant PutAll(derivatives, defaults[i..], f) == PutAll(old(derivatives), defaults, f)
      {
        var (key, service) := defaults[i];
        var derivative := BuildDefinition(baseId, key, service, base);
        assert defaults[i..][0] == (key, service);
        assert defaults[i..][1..] == defaults[i + 1..];
        assert f(key, service) == Arr(derivative);
        PutAllStep(derivatives, defaults[i..], f);
        derivatives := Put(derivatives, key, Arr(derivative));
        i := i + 1;
      }
      r := derivatives;
    }
  }

  /**
   * Over a catalogue without repeated keys, none of them already derived,
   * the deriver appends exactly one definition per entry, in order.
   */
  lemma DeriveAppends(acc: OMap<Value>, baseId: string, entries: OMap<Value>, base: OMap<Value>)
    requires DistinctKeys(entries)
    requires forall i :: 0 <= i < |entries| ==> !HasKey(acc, entries[i].0)
    ensures var r := Derive(acc, baseId, entries, base);
      && |r| == |acc| + |entries| && r[..|acc|] == acc
      && forall i :: 0 <= i < |entries| ==>
           r[|acc| + i] == (entries[i].0, Arr(Definition(baseId, entries[i].0, entries[i].1, base)))
  {
    PutAllFresh(acc, entries, DefinitionOf(baseId, base));
    forall i | 0 <= i < |entries|
      ensures Derive(acc, baseId, entries, base)[|acc| + i] == (entries[i].0, Arr(Definition(baseId, entries[i].0, entries[i].1, base)))
    {
      MapValuesAt(entries, DefinitionOf(baseId, base), i);
    }
  }

  /**
   * What a finished definition holds: the id joins the base id and the
   * entry key with the separator; the service id is the key; the label is the
   * entry's description; destination, type, codes and extra cover are the
   * entry's, `sub_option_code` read under that very key.
   */
  lemma DefinitionFields(baseId: string, key: string, service: Value, base: OMap<Value>)
    ensures var d := Definition(baseId, key, service, base);
      && Get(d, "id") == Some(Str(baseId + DerivativeSeparator + key))
      && Get(d, "service_id") == Some(Str(key))
      && Get(d, "label") == Some(Field(service, "description"))
      && Get(d, "destination") == Some(Field(service, "destination"))
      && Get(d, "service_type") == Some(Field(service, "type"))
      && Get(d, "service_code") == Some(Field(service, "service_code"))
      && Get(d, "option_code") == Some(Field(service, "option_code"))
      && Get(d, "sub_option_code") == Some(Field(service, "sub_option_code"))
      && Get(d, "extra_cover") == Some(Field(service, "extra_cover"))
  {
    var fields := EntryFields(baseId, key, service);
    DefinitionAt(baseId, key, service, base, 0);
    DefinitionAt(baseId, key, service, base, 1);
    DefinitionAt(baseId, key, service, base, 2);
    DefinitionAt(baseId, key, service, base, 3);
    DefinitionAt(baseId, key, service, base, 4);
    DefinitionAt(baseId, key, service, base, 5);
    DefinitionAt(baseId, key, service, base, 6);
    DefinitionAt(baseId, key, service, base, 7);
    DefinitionAt(baseId, key, service, base, 8);
  }

  /** The `i`-th entry field survives the merge under its own key. */
  lemma DefinitionAt(baseId: string, key: string, service: Value, base: OMap<Value>, i: nat)
    requires i < 9
    ensures Get(Definition(baseId, key, service, base), DerivativeKeys[i]) == Some(EntryFields(baseId, key, service)[i].1)
  {
    var der := Derivative(baseId, key, service);
    DerivativeLayout(baseId, key, service);
    GetAt(der, i);
    assert Keys(der)[i] == DerivativeKeys[i];
  }

  /**
   * A finished definition has `max_dimensions` when the entry's has all four
   * dimension keys, or when the base definition has one.
   */
  lemma DefinitionMaxDimensions(baseId: string, key: string, service: Value, base: OMap<Value>)
    ensures HasKey(Definition(baseId, key, service, base), "max_dimensions") <==>
      (KeyExists(service, "max_dimensions") && HasAllDimensions(Field(service, "max_dimensions")))
      || HasKey(base, "max_dimensions")
  {
    var der := Derivative(baseId, key, service);
    DerivativeLayout(baseId, key, service);
    if |der| == 10 {
      assert Keys(der)[9] == "max_dimensions";
    } else {
      assert Keys(der) == DerivativeKeys[..9];
      assert "max_dimensions" !in DerivativeKeys[..9];
    }
  }

  /** Every key a derivative never sets comes from the base definition. */
  lemma DefinitionFromBase(baseId: string, key: string, service: Value, base: OMap<Value>)
    ensures forall k :: k !in DerivativeKeys ==> Get(Definition(baseId, key, service, base), k) == Get(base, k)
  {
    DerivativeLayout(baseId, key, service);
  }

  /** A derivative holds the entry fields in the order of `DerivativeKeys`, and no key twice. */
  lemma DerivativeLayout(baseId: string, key: string, service: Value)
    ensures var der := Derivative(baseId, key, service);
      && 9 <= |der| <= 10
      && (forall i :: 0 <= i < |der| ==> der[i].0 == DerivativeKeys[i])
      && (forall i :: 0 <= i < 9 ==> der[i] == EntryFields(baseId, key, service)[i])
      && DistinctKeys(der)
      && (forall k :: HasKey(der, k) ==> k in DerivativeKeys)
      && (|der| == 10 <==> KeyExists(service, "max_dimensions") && HasAllDimensions(Field(service, "max_dimensions")))
  {
    var der := Derivative(baseId, key, service);
    assert forall i :: 0 <= i < |der| ==> der[i].0 == DerivativeKeys[i];
    LaidOutDistinct(der);
  }

  /** An array whose keys follow `DerivativeKeys` has no key twice, and no other key. */
  lemma LaidOutDistinct(der: OMap<Value>)
    requires |der| <= |DerivativeKeys|
    requires forall i :: 0 <= i < |der| ==> der[i].0 == DerivativeKeys[i]
    ensures DistinctKeys(der)
    ensures forall k :: HasKey(der, k) ==> k in DerivativeKeys
  {
    DerivativeKeysDistinct();
  }

  /** No key is listed twice in `DerivativeKeys`. */
  lemma DerivativeKeysDistinct()
    ensures forall i, j :: 0 <= i < j < |DerivativeKeys| ==> DerivativeKeys[i] != DerivativeKeys[j]
  {
    assert "service_type"[8] != "service_code"[8];
    assert "destination"[0] != "option_code"[0] && "destination"[0] != "extra_cover"[0];
    assert "option_code"[0] != "extra_cover"[0];
  }

  /** The keys a derivative can have before the merge. */
  const DerivativeKeys: seq<string> := ["id", "service_id", "label", "destination", "service_type",
    "service_code", "option_code", "sub_option_code", "extra_cover", "max_dimensions"]

  /**
   * A default catalogue entry has no `sub_option_code` key (its sub-option
   * is under `sub_opt_code`), and its `max_dimensions`, when present, has
   * `thickness` but no `height`.
   */
  lemma EntryKeysMismatch(s: ServiceDefinitionDefaults.DefaultService)
    ensures var e := Arr(ServiceDefinitionDefaults.EntryArray(s));
      && Field(e, "sub_option_code") == Null
      && Field(e, "description") == Str(s.description)
      && !(KeyExists(e, "max_dimensions") && HasAllDimensions(Field(e, "max_dimensions")))
  {
    EntryDescription(s);
    EntryLacksSubOptionCode(s);
    EntryDimensionsIncomplete(s);
  }

  /** The entry's `description` sits at position 2, after `type` and `destination`. */
  lemma EntryDescription(s: ServiceDefinitionDefaults.DefaultService)
    ensures Field(Arr(ServiceDefinitionDefaults.EntryArray(s)), "description") == Str(s.description)
  {
    var a := ServiceDefinitionDefaults.EntryArray(s);
    assert "description"[3] != "destination"[3];
    IndexOfIs(a, "description", 2);
    assert Get(a, "description") == Some(Str(s.description));
  }

  /** The entry spells the key `sub_opt_code`, so `sub_option_code` is absent. */
  lemma EntryLacksSubOptionCode(s: ServiceDefinitionDefaults.DefaultService)
    ensures Field(Arr(ServiceDefinitionDefaults.EntryArray(s)), "sub_option_code") == Null
  {
    var a := ServiceDefinitionDefaults.EntryArray(s);
    EntryKeysShort(s);
    forall i | 0 <= i < |a| ensures a[i].0 != "sub_option_code" {
      if i >= 7 { assert a[i].0 == "max_dimensions"; }
    }
    assert !HasKey(a, "sub_option_code");
  }

  /** An entry's `max_dimensions`, when present, lacks `height`. */
  lemma EntryDimensionsIncomplete(s: ServiceDefinitionDefaults.DefaultService)
    ensures var e := Arr(ServiceDefinitionDefaults.EntryArray(s));
      !(KeyExists(e, "max_dimensions") && HasAllDimensions(Field(e, "max_dimensions")))
  {
    var a := ServiceDefinitionDefaults.EntryArray(s);
    if KeyExists(Arr(a), "max_dimensions") {
      EntryKeysShort(s);
      var dims := Field(Arr(a), "max_dimensions");
      assert ("max_dimensions", dims) in a;
      var m := s.maxDimensions.value;
      assert dims == Arr([("length", Int(m.length)), ("width", Int(m.width)),
                          ("thickness", Int(m.thickness)), ("weight", Int(m.weight))]);
      DimensionsLackHeight(dims.items);
      assert DimensionKeys[2] == "height";
      assert !KeyExists(dims, "height");
    }
  }

  /** The seven fixed keys of a catalogue entry are all shorter than `max_dimensions`. */
  lemma EntryKeysShort(s: ServiceDefinitionDefaults.DefaultService)
    ensures var a := ServiceDefinitionDefaults.EntryArray(s);
      && |a| == 7 + (if s.maxDimensions.Some? then 1 else 0)
      && (forall i :: 0 <= i < 7 ==> |a[i].0| <= 12)
      && (s.maxDimensions.Some? ==> a[7].0 == "max_dimensions")
  {
  }

  /** A catalogue entry's `max_dimensions` has a thickness, not a height. */
  lemma DimensionsLackHeight(dims: OMap<Value>)
    requires Keys(dims) == ["length", "width", "thickness", "weight"]
    ensures !HasKey(dims, "height")
  {
    assert "height"[0] != "length"[0] && "height"[0] != "weight"[0];
  }

  /**
   * Derived from the default catalogue with a base definition that has no
   * `max_dimensions`, the deriver yields one definition per catalogue key,
   * in catalogue order; each is labelled with the entry's description, has
   * a NULL `sub_option_code` and no `max_dimensions`.
   */
  lemma {:induction false} DerivedFromDefaults(baseId: string, base: OMap<Value>)
    requires !HasKey(base, "max_dimensions")
    ensures var r := Derive([], baseId, ServiceDefinitionDefaults.ServicesArray(), base);
      && |r| == ServiceDefinitionDefaults.ServiceCount
      && forall i :: 0 <= i < ServiceDefinitionDefaults.ServiceCount ==>
           && r[i].0 == ServiceDefinitionDefaults.KeyAt(i)
           && r[i].1.Arr?
           && Get(r[i].1.items, "id") == Some(Str(baseId + ":" + ServiceDefinitionDefaults.KeyAt(i)))
           && Get(r[i].1.items, "label") == Some(Str(ServiceDefinitionDefaults.DescriptionAt(i)))
           && Get(r[i].1.items, "sub_option_code") == Some(Null)
           && !HasKey(r[i].1.items, "max_dimensions")
  {
    var entries := ServiceDefinitionDefaults.ServicesArray();
    ServiceDefinitionDefaults.ServiceKeysDistinct();
    DeriveAppends([], baseId, entries, base);
    var r := Derive([], baseId, entries, base);
    forall i | 0 <= i < ServiceDefinitionDefaults.ServiceCount
      ensures && r[i].0 == ServiceDefinitionDefaults.KeyAt(i)
              && r[i].1.Arr?
              && Get(r[i].1.items, "id") == Some(Str(baseId + ":" + ServiceDefinitionDefaults.KeyAt(i)))
              && Get(r[i].1.items, "label") == Some(Str(ServiceDefinitionDefaults.DescriptionAt(i)))
              && Get(r[i].1.items, "sub_option_code") == Some(Null)
              && !HasKey(r[i].1.items, "max_dimensions")
    {
      var s := ServiceDefinitionDefaults.ServiceAt(i);
      assert entries[i] == (s.key, Arr(ServiceDefinitionDefaults.EntryArray(s)));
      assert r[0 + i] == (entries[i].0, Arr(Definition(baseId, entries[i].0, entries[i].1, base)));
      EntryKeysMismatch(s);
      DefinitionFields(baseId, s.key, entries[i].1, base);
      DefinitionMaxDimensions(baseId, s.key, entries[i].1, base);
    }
  }

  /**
   * The catalogue's spelling of the letter limits: `thickness` where the
   * deriver and the service definition say `height`.
   */
  const CatalogueDimensionKeys: seq<string> := ["length", "width", "thickness", "weight"]

  /**
   * The letter limits under the keys the service definition reads: the
   * catalogue's `thickness` becomes the `height`.
   */
  function HeightFromThickness(dims: Value): Value
  {
    Arr([("length", Field(dims, "length")), ("width", Field(dims, "width")),
         ("height", Field(dims, "thickness")), ("weight", Field(dims, "weight"))])
  }

  /**
   * The derivative as the deriver evidently means it: the sub-option read
   * from the catalogue's `sub_opt_code`, and the size limits copied when the
   * catalogue's four keys are there, with the thickness as the height.
   */
  function CorrectedDerivative(baseId: string, key: string, service: Value): OMap<Value>
  {
    var fields := EntryFields(baseId, key, service)[7 := ("sub_option_code", Field(service, "sub_opt_code"))];
    if KeyExists(service, "max_dimensions")
       && forall k :: k in CatalogueDimensionKeys ==> KeyExists(Field(service, "max_dimensions"), k)
    then fields + [("max_dimensions", HeightFromThickness(Field(service, "max_dimensions")))]
    else fields
  }

  /** The corrected finished definition: the corrected derivative, then the base definition (`+=`). */
  function CorrectedDefinition(baseId: string, key: string, service: Value, base: OMap<Value>): OMap<Value>
  {
    Union(CorrectedDerivative(baseId, key, service), base)
  }

  /**
   * Derived the corrected way, every default entry keeps its sub-option,
   * and an entry with letter limits gets them as `max_dimensions`, with
   * the height the service definition requires taken from the thickness.
   */
  lemma CorrectedEntryKeepsCatalogue(baseId: string, s: ServiceDefinitionDefaults.DefaultService, base: OMap<Value>)
    ensures var d := CorrectedDefinition(baseId, s.key, Arr(ServiceDefinitionDefaults.EntryArray(s)), base);
      && Get(d, "sub_option_code") == Some(Str(ServiceDefinitionDefaults.OptionString(s.subOptCode)))
      && (s.maxDimensions.Some? ==>
            var m := s.maxDimensions.value;
            Get(d, "max_dimensions") == Some(Arr([("length", Int(m.length)), ("width", Int(m.width)),
                                                  ("height", Int(m.thickness)), ("weight", Int(m.weight))])))
  {
    var e := Arr(ServiceDefinitionDefaults.EntryArray(s));
    EntrySubOptCode(s);
    CorrectedSubOption(baseId, s.key, e, base);
    if s.maxDimensions.Some? {
      var m := s.maxDimensions.value;
      EntryLetterLimits(s);
      CatalogueDimensionsPresent(Int(m.length), Int(m.width), Int(m.thickness), Int(m.weight));
      CorrectedMaxDimensions(baseId, s.key, e, base);
      CatalogueDimensionsRead(Int(m.length), Int(m.width), Int(m.thickness), Int(m.weight));
    }
  }

  /** The corrected definition's `sub_option_code` is the entry's `sub_opt_code`. */
  lemma CorrectedSubOption(baseId: string, key: string, service: Value, base: OMap<Value>)
    ensures Get(CorrectedDefinition(baseId, key, service, base), "sub_option_code") == Some(Field(service, "sub_opt_code"))
  {
    var der := CorrectedDerivative(baseId, key, service);
    CorrectedLayout(baseId, key, service);
    GetAt(der, 7);
  }

  /** An entry with the catalogue's four letter-limit keys gets them, re-keyed, as `max_dimensions`. */
  lemma CorrectedMaxDimensions(baseId: string, key: string, service: Value, base: OMap<Value>)
    requires KeyExists(service, "max_dimensions")
    requires forall k :: k in CatalogueDimensionKeys ==> KeyExists(Field(service, "max_dimensions"), k)
    ensures Get(CorrectedDefinition(baseId, key, service, base), "max_dimensions")
            == Some(HeightFromThickness(Field(service, "max_dimensions")))
  {
    var der := CorrectedDerivative(baseId, key, service);
    CorrectedLayout(baseId, key, service);
    GetAt(der, 9);
  }

  /** A corrected derivative has the keys of `DerivativeKeys` in order, each once. */
  lemma CorrectedLayout(baseId: string, key: string, service: Value)
    ensures var der := CorrectedDerivative(baseId, key, service);
      && 9 <= |der| <= 10
      && (forall i :: 0 <= i < |der| ==> der[i].0 == DerivativeKeys[i])
      && DistinctKeys(der)
      && der[7] == ("sub_option_code", Field(service, "sub_opt_code"))
      && (|der| == 10 <==> KeyExists(service, "max_dimensions")
                           && forall k :: k in CatalogueDimensionKeys ==> KeyExists(Field(service, "max_dimensions"), k))
      && (|der| == 10 ==> der[9] == ("max_dimensions", HeightFromThickness(Field(service, "max_dimensions"))))
  {
    var der := CorrectedDerivative(baseId, key, service);
    assert forall i :: 0 <= i < |der| ==> der[i].0 == DerivativeKeys[i];
    LaidOutDistinct(der);
  }

  /** A catalogue entry's `sub_opt_code` is its sub-option's name, or "" without one. */
  lemma EntrySubOptCode(s: ServiceDefinitionDefaults.DefaultService)
    ensures Field(Arr(ServiceDefinitionDefaults.EntryArray(s)), "sub_opt_code")
            == Str(ServiceDefinitionDefaults.OptionString(s.subOptCode))
  {
    var a := ServiceDefinitionDefaults.EntryArray(s);
    EntryKeysShort(s);
    assert "sub_opt_code"[1] != "service_code"[1];
    assert a[5].0 == "sub_opt_code";
    IndexOfIs(a, "sub_opt_code", 5);
  }

  /** A catalogue entry's `max_dimensions` holds its letter limits under the catalogue's keys. */
  lemma EntryLetterLimits(s: ServiceDefinitionDefaults.DefaultService)
    requires s.maxDimensions.Some?
    ensures var m := s.maxDimensions.value;
      && KeyExists(Arr(ServiceDefinitionDefaults.EntryArray(s)), "max_dimensions")
      && Field(Arr(ServiceDefinitionDefaults.EntryArray(s)), "max_dimensions")
         == CatalogueDimensions(Int(m.length), Int(m.width), Int(m.thickness), Int(m.weight))
  {
    var a := ServiceDefinitionDefaults.EntryArray(s);
    EntryKeysShort(s);
    IndexOfIs(a, "max_dimensions", 7);
  }

  /** The letter limits under the catalogue's four keys. */
  function CatalogueDimensions(length: Value, width: Value, thickness: Value, weight: Value): Value
  {
    Arr([("length", length), ("width", width), ("thickness", thickness), ("weight", weight)])
  }

  /** A catalogue `max_dimensions` has each of the catalogue's four keys. */
  lemma CatalogueDimensionsPresent(length: Value, width: Value, thickness: Value, weight: Value)
    ensures forall k :: k in CatalogueDimensionKeys ==> KeyExists(CatalogueDimensions(length, width, thickness, weight), k)
  {
    var dims := CatalogueDimensions(length, width, thickness, weight).items;
    assert Keys(dims) == CatalogueDimensionKeys;
  }

  /** Re-keyed, a catalogue `max_dimensions` keeps its four values, the thickness as the height. */
  lemma CatalogueDimensionsRead(length: Value, width: Value, thickness: Value, weight: Value)
    ensures HeightFromThickness(CatalogueDimensions(length, width, thickness, weight))
            == Arr([("length", length), ("width", width), ("height", thickness), ("weight", weight)])
  {
    var dims := CatalogueDimensions(length, width, thickness, weight).items;
    assert "width"[0] != "length"[0] && "thickness"[0] != "length"[0] && "thickness"[0] != "width"[0];
    assert "weight"[1] != "width"[1] && "weight"[0] != "length"[0] && "weight"[0] != "thickness"[0];
    IndexOfIs(dims, "length", 0);
    IndexOfIs(dims, "width", 1);
    IndexOfIs(dims, "thickness", 2);
    IndexOfIs(dims, "weight", 3);
  }
}
