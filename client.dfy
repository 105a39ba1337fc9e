/**
 * `Client`: holds the PAC API key, builds the SDK client once, and turns a
 * request into the SDK call whose reply becomes a `Response`.
 */
module PostageClient {
  import opened Wrappers
  import opened OrderedMaps
  import opened PhpValues
  import ShippingAddress
  import opened ServiceDefinition
  import opened PostageRequest
  import opened PostageResponse

  /** The SDK's postage service, built by `Auspost::factory` in developer mode with the key it was given. */
  datatype SdkClient = SdkClient(authKey: Value)

  /** The SDK's `calculate…Postage($opts)` calls, which go over the network. */
  type Carrier = (string, OMap<Value>, SdkClient) -> Result<OMap<Value>>

  const InvalidKey: Failure := ClientError("Please provide a valid AusPost PAC API key.")
  const NoKey: Failure := ClientError("No API key provided, please set one.")

  /** `getClient()`: the cached SDK client, else one built with the key; there is none without a key. */
  function ClientFor(apiKey: Value, cached: Option<SdkClient>): (r: Result<SdkClient>)
    ensures r.Err? <==> apiKey == Null
    ensures r.Err? ==> r.error == NoKey
    ensures r.Ok? && cached.Some? ==> r.value == cached.value
    ensures r.Ok? && cached.None? ==> r.value.authKey == apiKey
  {
    if apiKey == Null then Err(NoKey)
    else if cached.Some? then Ok(cached.value)
    else Ok(SdkClient(apiKey))
  }

  /** The API's name for an extra-option key: only `sub_opt_code` is renamed. */
  function OptionKey(k: string): (r: string)
    ensures r != "sub_opt_code"
    ensures k != "sub_opt_code" ==> r == k
  {
    if k == "sub_opt_code" then "suboption_code" else k
  }

  /** The extra-options loop: each entry stored under its API key in `acc`, a later one overwriting an earlier. */
  function RenameInto(acc: OMap<Value>, extra: OMap<Value>): OMap<Value>
    decreases |extra|
  {
    if extra == [] then acc
    else RenameInto(Put(acc, OptionKey(extra[0].0), extra[0].1), extra[1..])
  }

  /** The keys the renamed options may hold: those already present and the renamed extra keys. */
  lemma {:induction false} RenameIntoKeys(acc: OMap<Value>, extra: OMap<Value>)
    ensures forall k :: HasKey(acc, k) ==> HasKey(RenameInto(acc, extra), k)
    ensures forall k :: HasKey(RenameInto(acc, extra), k) ==>
      HasKey(acc, k) || exists i :: 0 <= i < |extra| && OptionKey(extra[i].0) == k
    decreases |extra|
  {
    if extra != [] {
      var acc' := Put(acc, OptionKey(extra[0].0), extra[0].1);
      RenameIntoKeys(acc', extra[1..]);
      forall k | HasKey(RenameInto(acc, extra), k) && !HasKey(acc, k)
        ensures exists i :: 0 <= i < |extra| && OptionKey(extra[i].0) == k
      {
        if HasKey(acc', k) {
          assert OptionKey(extra[0].0) == k;
        } else {
          var i :| 0 <= i < |extra[1..]| && OptionKey(extra[1..][i].0) == k;
          assert OptionKey(extra[i + 1].0) == k;
        }
      }
    }
  }

  /** After renaming, `sub_opt_code` is never a key unless it was one before. */
  lemma NoSubOptCodeAfterRename(acc: OMap<Value>, extra: OMap<Value>)
    requires !HasKey(acc, "sub_opt_code")
    ensures !HasKey(RenameInto(acc, extra), "sub_opt_code")
  {
    RenameIntoKeys(acc, extra);
  }

  /** One option entry, present only when its value is not empty. */
  function OptionEntry(k: string, v: Value): OMap<Value>
  {
    if Empty(v) then [] else [(k, v)]
  }

  /** The dimension keys `getDimensions()` produces, in order. */
  const DimensionKeys: seq<string> := ["length", "width", "height", "weight"]

  /** The extra-option keys are pairwise distinct. */
  lemma OptionKeysApart()
    ensures "option_code" != "suboption_code" && "option_code" != "sub_opt_code" && "suboption_code" != "sub_opt_code"
  {
    assert "suboption_code"[3] != "sub_opt_code"[3];
  }

  /** The service-code and destination keys are pairwise distinct and differ from the extra-option keys. */
  lemma PlaceKeysApart()
    ensures forall k :: k in ["service_code", "from_postcode", "to_postcode", "country_code"] ==>
      k != "option_code" && k != "suboption_code" && k != "sub_opt_code"
    ensures "service_code" != "from_postcode" && "service_code" != "to_postcode" && "service_code" != "country_code"
    ensures "from_postcode" != "to_postcode" && "from_postcode" != "country_code" && "to_postcode" != "country_code"
  {
    forall k | k in ["service_code", "from_postcode", "to_postcode", "country_code"]
      ensures k[0] in {'s', 'f', 't', 'c'} && (k[0] == 's' ==> k[1] == 'e')
    {
    }
  }

  /** No dimension key is one of the other keys. */
  lemma DimensionKeysApart()
    ensures forall k :: k in DimensionKeys ==>
      && k != "service_code" && k != "from_postcode" && k != "to_postcode" && k != "country_code"
      && k != "option_code" && k != "suboption_code" && k != "sub_opt_code"
  {
    forall k | k in DimensionKeys
      ensures k[0] in {'l', 'w', 'h'}
    {
    }
  }

  /** `getAllOptions()` written out as a literal. */
  lemma AllOptionsShape(f: Fields)
    ensures AllOptions(f) == OptionEntry("option_code", f.optionCode) + OptionEntry("sub_opt_code", f.subOptionCode)
  {
    FilterPair(("option_code", f.optionCode), ("sub_opt_code", f.subOptionCode), NonEmptyEntry);
  }

  /** Renaming a one-entry map is a single store. */
  lemma RenameOne(acc: OMap<Value>, k: string, v: Value)
    ensures RenameInto(acc, [(k, v)]) == Put(acc, OptionKey(k), v)
  {
    assert [(k, v)][1..] == [];
  }

  /** Renaming a two-entry map is two stores, in order. */
  lemma RenameTwo(acc: OMap<Value>, k1: string, v1: Value, k2: string, v2: Value)
    ensures RenameInto(acc, [(k1, v1), (k2, v2)]) == Put(Put(acc, OptionKey(k1), v1), OptionKey(k2), v2)
  {
    assert [(k1, v1), (k2, v2)][1..] == [(k2, v2)];
    RenameOne(Put(acc, OptionKey(k1), v1), k2, v2);
  }

  /** Renaming a definition's options moves the sub-option code to `suboption_code` and keeps the order. */
  lemma RenamedShape(oc: Value, so: Value)
    ensures RenameInto([], OptionEntry("option_code", oc) + OptionEntry("sub_opt_code", so))
         == OptionEntry("option_code", oc) + OptionEntry("suboption_code", so)
  {
    OptionKeysApart();
    var xs := OptionEntry("option_code", oc) + OptionEntry("sub_opt_code", so);
    assert OptionKey("option_code") == "option_code";
    assert OptionKey("sub_opt_code") == "suboption_code";
    if Empty(oc) && Empty(so) {
      assert xs == [];
    } else if Empty(so) {
      assert xs == [("option_code", oc)];
      RenameOne([], "option_code", oc);
      PutFresh([], "option_code", oc);
    } else if Empty(oc) {
      assert xs == [("sub_opt_code", so)];
      RenameOne([], "sub_opt_code", so);
      PutFresh([], "suboption_code", so);
    } else {
      assert xs == [("option_code", oc), ("sub_opt_code", so)];
      RenamedBoth(oc, so);
    }
  }

  /** Both codes present: two fresh stores. */
  lemma RenamedBoth(oc: Value, so: Value)
    ensures RenameInto([], [("option_code", oc), ("sub_opt_code", so)])
         == [("option_code", oc), ("suboption_code", so)]
  {
    OptionKeysApart();
    RenameTwo([], "option_code", oc, "sub_opt_code", so);
    assert OptionKey("option_code") == "option_code";
    assert OptionKey("sub_opt_code") == "suboption_code";
    PutTwoFresh("option_code", oc, "suboption_code", so);
  }

  /** Lookups in the renamed options written out as a literal. */
  lemma RenamedEntriesFacts(oc: Value, so: Value)
    ensures var r := OptionEntry("option_code", oc) + OptionEntry("suboption_code", so);
      && !HasKey(r, "sub_opt_code")
      && Get(r, "suboption_code") == (if Empty(so) then None else Some(so))
      && Get(r, "option_code") == (if Empty(oc) then None else Some(oc))
      && (forall k :: HasKey(r, k) ==> k == "option_code" || k == "suboption_code")
  {
    OptionKeysApart();
    var r := OptionEntry("option_code", oc) + OptionEntry("suboption_code", so);
    if Empty(oc) && Empty(so) {
      assert r == [];
    } else if Empty(so) {
      assert r == [("option_code", oc)];
      GetSingle("option_code", oc, "sub_opt_code");
      GetSingle("option_code", oc, "suboption_code");
      GetSingle("option_code", oc, "option_code");
    } else if Empty(oc) {
      assert r == [("suboption_code", so)];
      GetSingle("suboption_code", so, "sub_opt_code");
      GetSingle("suboption_code", so, "suboption_code");
      GetSingle("suboption_code", so, "option_code");
    } else {
      assert r == [("option_code", oc), ("suboption_code", so)];
      GetPair("option_code", oc, "suboption_code", so, "sub_opt_code");
      GetPair("option_code", oc, "suboption_code", so, "suboption_code");
      GetPair("option_code", oc, "suboption_code", so, "option_code");
    }
    forall k | HasKey(r, k)
      ensures k == "option_code" || k == "suboption_code"
    {
      assert k in Keys(r);
    }
  }

  /**
   * On a definition's option codes the renaming moves the sub-option code
   * to `suboption_code` and keeps the option code where it was.
   */
  lemma RenamedDefinitionOptions(f: Fields)
    ensures var r := RenameInto([], AllOptions(f));
      && !HasKey(r, "sub_opt_code")
      && Get(r, "suboption_code") == Get(AllOptions(f), "sub_opt_code")
      && Get(r, "option_code") == Get(AllOptions(f), "option_code")
      && (forall k :: HasKey(r, k) ==> k == "option_code" || k == "suboption_code")
  {
    AllOptionsShape(f);
    RenamedShape(f.optionCode, f.subOptionCode);
    RenamedEntriesFacts(f.optionCode, f.subOptionCode);
  }

  /** The four SDK methods, `calculate` + destination + package type + `Postage`. */
  function MethodName(domestic: bool, parcel: bool): (name: string)
    ensures name in {"calculateDomesticParcelPostage", "calculateDomesticLetterPostage",
                     "calculateInternationalParcelPostage", "calculateInternationalLetterPostage"}
  {
    SpelledDomesticParcel();
    SpelledDomesticLetter();
    SpelledInternationalParcel();
    SpelledInternationalLetter();
    "calculate" + (if domestic then "Domestic" else "International") + (if parcel then "Parcel" else "Letter") + "Postage"
  }

  lemma SpelledDomesticParcel()
    ensures "calculate" + "Domestic" + "Parcel" + "Postage" == "calculateDomesticParcelPostage"
  {
  }

  lemma SpelledDomesticLetter()
    ensures "calculate" + "Domestic" + "Letter" + "Postage" == "calculateDomesticLetterPostage"
  {
  }

  lemma SpelledInternationalParcel()
    ensures "calculate" + "International" + "Parcel" + "Postage" == "calculateInternationalParcelPostage"
  {
  }

  lemma SpelledInternationalLetter()
    ensures "calculate" + "International" + "Letter" + "Postage" == "calculateInternationalLetterPostage"
  {
  }

  /** Each destination and package type goes to its own SDK method. */
  lemma MethodNameInjective(d1: bool, p1: bool, d2: bool, p2: bool)
    requires MethodName(d1, p1) == MethodName(d2, p2)
    ensures d1 == d2 && p1 == p2
  {
    var n1, n2 := MethodName(d1, p1), MethodName(d2, p2);
    assert n1[9] == if d1 then 'D' else 'I';
    assert n2[9] == if d2 then 'D' else 'I';
    var at := if d1 then 17 else 22;
    assert n1[at] == if p1 then 'P' else 'L';
    assert n2[at] == if p2 then 'P' else 'L';
  }

  /** A postcode as sent: the cast integer, or NULL without a recipient address. */
  function PostcodeValue(p: Option<int>): Value
  {
    match p
    case None => Null
    case Some(n) => Int(n)
  }

  function CountryValue(c: Option<string>): Value
  {
    match c
    case None => Null
    case Some(code) => Str(code)
  }

  /** The option map before the extra options: the service code, the dimensions, and where the parcel goes. */
  function LocatedOptions(address: ShippingAddress.Address, code: Value, dims: OMap<Value>, domestic: bool): OMap<Value>
  {
    var base := Union([("service_code", code)], dims);
    if domestic then
      Put(Put(base, "from_postcode", Int(ShippingAddress.ShipperPostcode(address))),
          "to_postcode", PostcodeValue(ShippingAddress.RecipientPostcode(address)))
    else Put(base, "country_code", CountryValue(ShippingAddress.RecipientCountryCode(address)))
  }

  /** The keys `LocatedOptions` holds. */
  function LocatedKeys(domestic: bool): seq<string>
  {
    ["service_code"] + DimensionKeys + if domestic then ["from_postcode", "to_postcode"] else ["country_code"]
  }

  /** Which keys the located options never hold. */
  lemma LocatedKeysExclude(domestic: bool)
    ensures "option_code" !in LocatedKeys(domestic) && "suboption_code" !in LocatedKeys(domestic)
      && "sub_opt_code" !in LocatedKeys(domestic)
    ensures domestic ==> "country_code" !in LocatedKeys(domestic)
    ensures !domestic ==> "from_postcode" !in LocatedKeys(domestic) && "to_postcode" !in LocatedKeys(domestic)
  {
    DimensionKeysApart();
    PlaceKeysApart();
    OptionKeysApart();
    var tail: seq<string> := if domestic then ["from_postcode", "to_postcode"] else ["country_code"];
    assert LocatedKeys(domestic) == ["service_code"] + DimensionKeys + tail;
    forall k | k in LocatedKeys(domestic)
      ensures k == "service_code" || k in DimensionKeys || k in tail
    {
    }
  }

  /** `['service_code' => $code] + $dimensions`: the service code first, then the dimensions. */
  lemma BaseOptionsFacts(code: Value, dims: OMap<Value>)
    requires Keys(dims) == DimensionKeys
    ensures var base := Union([("service_code", code)], dims);
      && (forall k :: HasKey(base, k) <==> k in ["service_code"] + DimensionKeys)
      && Keys(base)[0] == "service_code" && Get(base, "service_code") == Some(code)
      && (forall k :: k in DimensionKeys ==> Get(base, k) == Get(dims, k))
  {
    DimensionKeysApart();
    var head: OMap<Value> := [("service_code", code)];
    var base := Union(head, dims);
    assert Keys(head) == ["service_code"];
    assert base[..1] == head;
    assert base[0] == head[0];
    forall k | k in DimensionKeys
      ensures Get(base, k) == Get(dims, k)
    {
      assert !HasKey(head, k);
    }
  }

  /** The located options hold exactly the service code, the dimensions and the destination's keys. */
  lemma LocatedOptionsFacts(address: ShippingAddress.Address, code: Value, dims: OMap<Value>, domestic: bool)
    requires Keys(dims) == DimensionKeys
    ensures var located := LocatedOptions(address, code, dims, domestic);
      && (forall k :: HasKey(located, k) <==> k in LocatedKeys(domestic))
      && Keys(located)[0] == "service_code" && Get(located, "service_code") == Some(code)
      && (forall k :: k in DimensionKeys ==> Get(located, k) == Get(dims, k))
      && (domestic ==> (Get(located, "from_postcode") == Some(Int(ShippingAddress.ShipperPostcode(address)))
                    && Get(located, "to_postcode") == Some(PostcodeValue(ShippingAddress.RecipientPostcode(address)))))
      && (!domestic ==> Get(located, "country_code") == Some(CountryValue(ShippingAddress.RecipientCountryCode(address))))
  {
    if domestic {
      DomesticOptionsFacts(address, code, dims);
    } else {
      InternationalOptionsFacts(address, code, dims);
    }
  }

  /** `LocatedOptionsFacts` for a domestic destination. */
  lemma DomesticOptionsFacts(address: ShippingAddress.Address, code: Value, dims: OMap<Value>)
    requires Keys(dims) == DimensionKeys
    ensures var located := LocatedOptions(address, code, dims, true);
      && (forall k :: HasKey(located, k) <==> k in LocatedKeys(true))
      && Keys(located)[0] == "service_code" && Get(located, "service_code") == Some(code)
      && (forall k :: k in DimensionKeys ==> Get(located, k) == Get(dims, k))
      && Get(located, "from_postcode") == Some(Int(ShippingAddress.ShipperPostcode(address)))
      && Get(located, "to_postcode") == Some(PostcodeValue(ShippingAddress.RecipientPostcode(address)))
  {
    DimensionKeysApart();
    PlaceKeysApart();
    BaseOptionsFacts(code, dims);
    var base := Union([("service_code", code)], dims);
    var b1 := Put(base, "from_postcode", Int(ShippingAddress.ShipperPostcode(address)));
    var located := Put(b1, "to_postcode", PostcodeValue(ShippingAddress.RecipientPostcode(address)));
    assert located == LocatedOptions(address, code, dims, true);
    assert LocatedKeys(true) == (["service_code"] + DimensionKeys) + ["from_postcode", "to_postcode"];
    assert Keys(b1)[0] == "service_code";
    forall k ensures HasKey(located, k) <==> k in LocatedKeys(true) {
      assert HasKey(b1, k) <==> HasKey(base, k) || k == "from_postcode";
      assert HasKey(located, k) <==> HasKey(b1, k) || k == "to_postcode";
    }
    forall k | k in DimensionKeys
      ensures Get(located, k) == Get(dims, k)
    {
      assert Get(b1, k) == Get(base, k);
    }
  }

  /** `LocatedOptionsFacts` for an international destination. */
  lemma InternationalOptionsFacts(address: ShippingAddress.Address, code: Value, dims: OMap<Value>)
    requires Keys(dims) == DimensionKeys
    ensures var located := LocatedOptions(address, code, dims, false);
      && (forall k :: HasKey(located, k) <==> k in LocatedKeys(false))
      && Keys(located)[0] == "service_code" && Get(located, "service_code") == Some(code)
      && (forall k :: k in DimensionKeys ==> Get(located, k) == Get(dims, k))
      && Get(located, "country_code") == Some(CountryValue(ShippingAddress.RecipientCountryCode(address)))
  {
    DimensionKeysApart();
    PlaceKeysApart();
    BaseOptionsFacts(code, dims);
    var base := Union([("service_code", code)], dims);
    var located := Put(base, "country_code", CountryValue(ShippingAddress.RecipientCountryCode(address)));
    assert located == LocatedOptions(address, code, dims, false);
    assert LocatedKeys(false) == (["service_code"] + DimensionKeys) + ["country_code"];
    forall k ensures HasKey(located, k) <==> k in LocatedKeys(false) {
      assert HasKey(located, k) <==> HasKey(base, k) || k == "country_code";
    }
  }

  /**
   * `calculatePostage()`'s option map: the located options, then the
   * renamed extra options merged with `+=`.
   */
  function OptionsOf(address: ShippingAddress.Address, code: Value, dims: OMap<Value>, domestic: bool, definition: Fields): OMap<Value>
  {
    Union(LocatedOptions(address, code, dims, domestic), RenameInto([], AllOptions(definition)))
  }

  /**
   * The option map carries the service code first, the four dimensions
   * as given, both postcodes and no country for a domestic request or the
   * country and no postcodes for an international one, and the extra
   * options under the API's names; the `+=` merge never lets an extra
   * option replace one of these.
   */
  lemma OptionsOfContents(address: ShippingAddress.Address, code: Value, dims: OMap<Value>, domestic: bool, definition: Fields)
    requires Keys(dims) == DimensionKeys
    ensures var opts := OptionsOf(address, code, dims, domestic, definition);
      var extra := AllOptions(definition);
      && Keys(opts)[0] == "service_code" && Get(opts, "service_code") == Some(code)
      && (forall k :: k in DimensionKeys ==> Get(opts, k) == Get(dims, k))
      && (domestic ==> (Get(opts, "from_postcode") == Some(Int(ShippingAddress.ShipperPostcode(address)))
                    && Get(opts, "to_postcode") == Some(PostcodeValue(ShippingAddress.RecipientPostcode(address)))
                    && !HasKey(opts, "country_code")))
      && (!domestic ==> (Get(opts, "country_code") == Some(CountryValue(ShippingAddress.RecipientCountryCode(address)))
                     && !HasKey(opts, "from_postcode") && !HasKey(opts, "to_postcode")))
      && !HasKey(opts, "sub_opt_code")
      && Get(opts, "suboption_code") == Get(extra, "sub_opt_code")
      && Get(opts, "option_code") == Get(extra, "option_code")
  {
    OptionsOfPlaces(address, code, dims, domestic, definition);
    OptionsOfExtras(address, code, dims, domestic, definition);
  }

  /** The located part of the option map survives the merge unchanged. */
  lemma OptionsOfPlaces(address: ShippingAddress.Address, code: Value, dims: OMap<Value>, domestic: bool, definition: Fields)
    requires Keys(dims) == DimensionKeys
    ensures var opts := OptionsOf(address, code, dims, domestic, definition);
      && Keys(opts)[0] == "service_code" && Get(opts, "service_code") == Some(code)
      && (forall k :: k in DimensionKeys ==> Get(opts, k) == Get(dims, k))
      && (domestic ==> (Get(opts, "from_postcode") == Some(Int(ShippingAddress.ShipperPostcode(address)))
                    && Get(opts, "to_postcode") == Some(PostcodeValue(ShippingAddress.RecipientPostcode(address)))
                    && !HasKey(opts, "country_code")))
      && (!domestic ==> (Get(opts, "country_code") == Some(CountryValue(ShippingAddress.RecipientCountryCode(address)))
                     && !HasKey(opts, "from_postcode") && !HasKey(opts, "to_postcode")))
  {
    var located := LocatedOptions(address, code, dims, domestic);
    var renamed := RenameInto([], AllOptions(definition));
    var opts := Union(located, renamed);
    LocatedOptionsFacts(address, code, dims, domestic);
    assert Keys(opts)[0] == Keys(located)[0] by {
      assert opts[..|located|] == located;
      assert opts[0] == located[0];
    }
    RenamedLacksPlaceKeys(definition);
    LocatedKeysExclude(domestic);
  }

  /** The renamed extra options hold none of the service-code and destination keys. */
  lemma RenamedLacksPlaceKeys(definition: Fields)
    ensures var renamed := RenameInto([], AllOptions(definition));
      && !HasKey(renamed, "service_code") && !HasKey(renamed, "from_postcode")
      && !HasKey(renamed, "to_postcode") && !HasKey(renamed, "country_code")
  {
    assert "service_code"[1] != "suboption_code"[1] && "service_code"[0] != "option_code"[0];
    NotRenamedKey(definition, "service_code");
    assert "from_postcode"[0] != "option_code"[0] && "from_postcode"[0] != "suboption_code"[0];
    NotRenamedKey(definition, "from_postcode");
    assert "to_postcode"[0] != "option_code"[0] && "to_postcode"[0] != "suboption_code"[0];
    NotRenamedKey(definition, "to_postcode");
    assert "country_code"[0] != "option_code"[0] && "country_code"[0] != "suboption_code"[0];
    NotRenamedKey(definition, "country_code");
  }

  /** Only the two API option keys can be among the renamed extra options. */
  lemma NotRenamedKey(definition: Fields, k: string)
    requires k != "option_code" && k != "suboption_code"
    ensures !HasKey(RenameInto([], AllOptions(definition)), k)
  {
    RenamedDefinitionOptions(definition);
  }

  /** The extra options reach the option map under their API names. */
  lemma OptionsOfExtras(address: ShippingAddress.Address, code: Value, dims: OMap<Value>, domestic: bool, definition: Fields)
    requires Keys(dims) == DimensionKeys
    ensures var opts := OptionsOf(address, code, dims, domestic, definition);
      var extra := AllOptions(definition);
      && !HasKey(opts, "sub_opt_code")
      && Get(opts, "suboption_code") == Get(extra, "sub_opt_code")
      && Get(opts, "option_code") == Get(extra, "option_code")
  {
    var located := LocatedOptions(address, code, dims, domestic);
    LocatedOptionsFacts(address, code, dims, domestic);
    LocatedKeysExclude(domestic);
    RenamedDefinitionOptions(definition);
    assert !HasKey(located, "suboption_code") && !HasKey(located, "option_code") && !HasKey(located, "sub_opt_code");
  }

  /**
   * `calculatePostage()` up to the SDK call: the method name and option
   * map it is given, or the request's first error.
   */
  function PostageCall(s: RequestState, weigher: ParcelWeigher): (r: Result<(string, OMap<Value>)>)
    ensures s.address.None? ==> r == Err(RequestError("Address is not set."))
  {
    var address :- AddressOf(s);
    var dims :- Dimensions(s, weigher);
    var code :- ServiceCodeOf(s);
    var domestic :- IsDomestic(s);
    Ok((MethodName(domestic, IsParcel(s)), OptionsOf(address, code, dims, domestic, s.serviceDefinition.value)))
  }

  /**
   * A call is made exactly when the request has its address, packed box,
   * shipping weight, service definition and a known destination; it goes
   * to the SDK method for that destination and package type with the
   * option map built from the request.
   */
  lemma PostageCallMade(s: RequestState, weigher: ParcelWeigher)
    ensures PostageCall(s, weigher).Ok? <==>
      s.address.Some? && Dimensions(s, weigher).Ok? && s.serviceDefinition.Some? && IsDomestic(s).Ok?
    ensures PostageCall(s, weigher).Ok? ==>
      var domestic := IsDomestic(s).value;
      && Keys(Dimensions(s, weigher).value) == DimensionKeys
      && PostageCall(s, weigher).value == (MethodName(domestic, IsParcel(s)),
           OptionsOf(s.address.value, s.serviceDefinition.value.serviceCode, Dimensions(s, weigher).value, domestic, s.serviceDefinition.value))
  {
  }

  /** `calculatePostage()`: the carrier's reply to the call, or the first error met on the way. */
  function Quote(s: RequestState, weigher: ParcelWeigher, apiKey: Value, cached: Option<SdkClient>, carrier: Carrier): Result<OMap<Value>>
  {
    var call :- PostageCall(s, weigher);
    var sdk :- ClientFor(apiKey, cached);
    carrier(call.0, call.1, sdk)
  }

  class Client {
    var apiKey: Value
    var client: Option<SdkClient>
    const carrier: Carrier

    constructor(apiKey: Value, carrier: Carrier)
      ensures this.apiKey == apiKey && client.None? && this.carrier == carrier
    {
      this.apiKey := apiKey;
      client := None;
      this.carrier := carrier;
    }

    /** `setApiKey()`: an empty key is refused and the stored key kept; the cached client is never rebuilt. */
    method SetApiKey(key: Value) returns (r: Result<()>)
      modifies this
      ensures r.Ok? <==> !Empty(key)
      ensures apiKey == (if r.Ok? then key else old(apiKey)) && client == old(client)
      ensures r.Err? ==> r.error == InvalidKey
    {
      if Empty(key) {
        return Err(InvalidKey);
      }
      apiKey := key;
      r := Ok(());
    }

    /** `getClient()`: builds the SDK client on first use and caches it. */
    method GetClient() returns (r: Result<SdkClient>)
      modifies this
      ensures r == ClientFor(old(apiKey), old(client))
      ensures apiKey == old(apiKey)
      ensures client == if r.Ok? then Some(r.value) else old(client)
    {
      if apiKey == Null {
        return Err(NoKey);
      }
      if client.None? {
        client := Some(SdkClient(apiKey));
      }
      r := Ok(client.value);
    }

    /** `calculatePostage()`: a fresh response carrying the request and the carrier's reply. */
    method CalculatePostage(request: Request) returns (r: Result<Response>)
      modifies this
      ensures var quote := Quote(request.State(), request.weigher, old(apiKey), old(client), carrier);
        && (r.Ok? <==> quote.Ok?)
        && (r.Ok? ==> fresh(r.value) && r.value.request == Some(request) && r.value.reply == Some(quote.value))
        && (r.Err? ==> r.error == quote.error)
      ensures apiKey == old(apiKey)
      ensures var call := PostageCall(request.State(), request.weigher);
        client == if call.Ok? && old(apiKey) != Null then Some(ClientFor(old(apiKey), old(client)).value) else old(client)
    {
      var call := BuildCall(request);
      if call.Err? {
        return Err(call.error);
      }
      var sdk := GetClient();
      if sdk.Err? {
        return Err(sdk.error);
      }
      var reply := carrier(call.value.0, call.value.1, sdk.value);
      if reply.Err? {
        return Err(reply.error);
      }
      var response := new Response();
      response.SetRequest(request);
      response.SetResponse(reply.value);
      r := Ok(response);
    }
  }

  /** The extra-options loop of `calculatePostage()`. */
  method RenameOptions(extra: OMap<Value>) returns (extraOpts: OMap<Value>)
    ensures extraOpts == RenameInto([], extra)
  {
    extraOpts := [];
    for i := 0 to |extra|
      invariant RenameInto(extraOpts, extra[i..]) == RenameInto([], extra)
    {
      assert extra[i..][1..] == extra[i + 1..];
      extraOpts := Put(extraOpts, OptionKey(extra[i].0), extra[i].1);
    }
    assert extra[|extra|..] == [];
  }

  /** The method-name appends of `calculatePostage()`. */
  method BuildMethodName(domestic: bool, parcel: bool) returns (name: string)
    ensures name == MethodName(domestic, parcel)
  {
    name := "calculate";
    if domestic {
      name := name + "Domestic";
    } else {
      name := name + "International";
    }
    if parcel {
      name := name + "Parcel";
    } else {
      name := name + "Letter";
    }
    name := name + "Postage";
  }

  /** `calculatePostage()` up to the SDK call, as the source assembles it. */
  method BuildCall(request: Request) returns (r: Result<(string, OMap<Value>)>)
    ensures r == PostageCall(request.State(), request.weigher)
  {
    var s := request.State();
    var address := AddressOf(s);
    if address.Err? {
      return Err(address.error);
    }
    var dims := Dimensions(s, request.weigher);
    if dims.Err? {
      return Err(dims.error);
    }
    var code := ServiceCodeOf(s);
    if code.Err? {
      return Err(code.error);
    }
    var opts := Union([("service_code", code.value)], dims.value);
    var domestic := IsDomestic(s);
    if domestic.Err? {
      return Err(domestic.error);
    }
    if domestic.value {
      opts := Put(opts, "from_postcode", Int(ShippingAddress.ShipperPostcode(address.value)));
      opts := Put(opts, "to_postcode", PostcodeValue(ShippingAddress.RecipientPostcode(address.value)));
    } else {
      opts := Put(opts, "country_code", CountryValue(ShippingAddress.RecipientCountryCode(address.value)));
    }
    assert opts == LocatedOptions(address.value, code.value, dims.value, domestic.value);
    var extraOpts := RenameOptions(AllOptions(s.serviceDefinition.value));
    opts := Union(opts, extraOpts);
    var name := BuildMethodName(domestic.value, IsParcel(s));
    r := Ok((name, opts));
  }
}
