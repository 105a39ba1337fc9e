/**
 * Lookups over a service catalogue keyed by entry key, written once and used
 * by both lookup classes of the plugin (`SupportedServices` and
 * `ServiceSupport`), which hold the same thirteen-entry catalogue.
 */
module ServiceLookup {
  import opened Wrappers
  import opened OrderedMaps
  import opened ServiceEnums
  import opened ServiceDefinitions

  type Table = seq<Service>

  /** `array_key_exists($key, $services)`. */
  predicate HasService(t: Table, key: string)
  {
    exists i :: 0 <= i < |t| && t[i].key == key
  }

  /** `getService($key)`: the entry under `key`, or ServiceNotFoundException. */
  function GetService(t: Table, key: string): (r: Result<Service>)
    ensures r.Ok? <==> HasService(t, key)
    ensures r.Ok? ==> r.value in t && r.value.key == key
    ensures r.Err? ==> r.error == ServiceNotFound("Requested service '" + key + "' does not exist.")
  {
    if t == [] then Err(ServiceNotFound("Requested service '" + key + "' does not exist."))
    else if t[0].key == key then Ok(t[0])
    else
      assert HasService(t, key) <==> HasService(t[1..], key) by {
        if HasService(t, key) {
          var i :| 0 <= i < |t| && t[i].key == key;
          assert t[1..][i - 1] == t[i];
        }
      }
      GetService(t[1..], key)
  }

  /**
   * The `switch ($type)` of `getServices`: PHP compares loosely, so an empty
   * string matches `case NULL` and means "no filter" like NULL itself.
   */
  function TypeArgument(arg: Option<string>): (r: Result<Option<ServiceType>>)
    ensures r == Ok(None) <==> arg.None? || arg == Some("")
    ensures r.Ok? && r.value.Some? ==> arg == Some(ServiceTypeName(r.value.value))
    ensures r.Err? <==> arg.Some? && arg.value != "" && ParseServiceType(arg.value).None?
    ensures r.Err? ==> r.error == ServiceNotFound("Unknown service type '" + arg.value + "'.")
  {
    match arg
    case None => Ok(None)
    case Some(s) =>
      if s == "" then Ok(None)
      else if ParseServiceType(s).Some? then Ok(ParseServiceType(s))
      else Err(ServiceNotFound("Unknown service type '" + s + "'."))
  }

  /** The `switch ($dest)` of `getServices`, with the same loose NULL case. */
  function DestinationArgument(arg: Option<string>): (r: Result<Option<Destination>>)
    ensures r == Ok(None) <==> arg.None? || arg == Some("")
    ensures r.Ok? && r.value.Some? ==> arg == Some(DestinationName(r.value.value))
    ensures r.Err? <==> arg.Some? && arg.value != "" && ParseDestination(arg.value).None?
    ensures r.Err? ==> r.error == ServiceNotFound("Unknown service destination '" + arg.value + "'.")
  {
    match arg
    case None => Ok(None)
    case Some(s) =>
      if s == "" then Ok(None)
      else if ParseDestination(s).Some? then Ok(ParseDestination(s))
      else Err(ServiceNotFound("Unknown service destination '" + s + "'."))
  }

  function OfType(ty: Option<ServiceType>): Service -> bool
  {
    (s: Service) => ty.None? || s.serviceType == ty.value
  }

  function ToDestination(d: Option<Destination>): Service -> bool
  {
    (s: Service) => d.None? || s.destination == d.value
  }

  /** An entry passes both filters of `getServices`. */
  function Matches(ty: Option<ServiceType>, d: Option<Destination>): Service -> bool
  {
    (s: Service) => (ty.None? || s.serviceType == ty.value) && (d.None? || s.destination == d.value)
  }

  /**
   * `getServices($type, $dest)`: the entries of the given type and
   * destination, in catalogue order; an argument that is neither a known
   * value nor NULL (or '') raises ServiceNotFoundException, the type first.
   */
  function GetServices(t: Table, ty: Option<string>, dest: Option<string>): (r: Result<Table>)
    ensures r.Err? <==> TypeArgument(ty).Err? || DestinationArgument(dest).Err?
    ensures TypeArgument(ty).Err? ==> r == Err(TypeArgument(ty).error)
    ensures r.Ok? ==> r.value == Filter(t, Matches(TypeArgument(ty).value, DestinationArgument(dest).value))
  {
    if ty.None? && dest.None? then
      assert forall i :: 0 <= i < |t| ==> Matches(None, None)(t[i]);
      FilterRange(t, Matches(None, None), 0, |t|);
      Ok(t)
    else
      match TypeArgument(ty)
      case Err(e) => Err(e)
      case Ok(tf) =>
        var byType := if tf.Some? then Filter(t, OfType(tf)) else t;
        match DestinationArgument(dest)
        case Err(e) => Err(e)
        case Ok(df) =>
          var byDest := if df.Some? then Filter(byType, ToDestination(df)) else byType;
          MatchesAsFilters(t, tf, df);
          Ok(byDest)
  }

  lemma {:induction false} MatchesAsFilters(t: Table, tf: Option<ServiceType>, df: Option<Destination>)
    ensures var byType := if tf.Some? then Filter(t, OfType(tf)) else t;
      Filter(t, Matches(tf, df)) == if df.Some? then Filter(byType, ToDestination(df)) else byType
  {
    var byType := if tf.Some? then Filter(t, OfType(tf)) else t;
    assert forall i :: 0 <= i < |t| ==> OfType(None)(t[i]);
    FilterRange(t, OfType(None), 0, |t|);
    assert byType == Filter(t, OfType(tf));
    FilterFilter(t, OfType(tf), ToDestination(df), Matches(tf, df));
    assert Filter(t, Matches(tf, df)) == Filter(byType, ToDestination(df));
    if df.None? {
      assert forall i :: 0 <= i < |byType| ==> ToDestination(None)(byType[i]);
      FilterRange(byType, ToDestination(None), 0, |byType|);
    }
  }

  /** Called with the strings of a type and, optionally, a destination, `getServices` filters by both. */
  lemma {:induction false} GetServicesByNames(t: Table, ty: ServiceType, d: Option<Destination>)
    ensures GetServices(t, Some(ServiceTypeName(ty)), if d.Some? then Some(DestinationName(d.value)) else None)
      == Ok(Filter(t, Matches(Some(ty), d)))
  {
    var dest := if d.Some? then Some(DestinationName(d.value)) else None;
    NamesParse(if d.Some? then d.value else Domestic, ty);
    assert TypeArgument(Some(ServiceTypeName(ty))) == Ok(Some(ty));
    assert DestinationArgument(dest) == Ok(d);
  }

  /** Filtering by type and destination together equals keeping the entries both one-argument calls return. */
  lemma {:induction false} GetServicesIntersects(t: Table, ty: Option<string>, dest: Option<string>)
    requires GetServices(t, ty, dest).Ok?
    ensures GetServices(t, ty, None).Ok? && GetServices(t, None, dest).Ok?
    ensures forall s :: s in GetServices(t, ty, dest).value <==>
      s in GetServices(t, ty, None).value && s in GetServices(t, None, dest).value
  {
    var tf, df := TypeArgument(ty).value, DestinationArgument(dest).value;
    var both, byType, byDest := GetServices(t, ty, dest).value, GetServices(t, ty, None).value, GetServices(t, None, dest).value;
    forall s ensures s in both <==> s in byType && s in byDest {
      FilterMembership(t, Matches(tf, df), s);
      FilterMembership(t, Matches(tf, None), s);
      FilterMembership(t, Matches(None, df), s);
    }
  }

  lemma {:induction false} FilterMembership(t: Table, keep: Service -> bool, s: Service)
    ensures s in Filter(t, keep) <==> s in t && keep(s)
  {
    if t != [] {
      FilterMembership(t[1..], keep, s);
      assert t == [t[0]] + t[1..];
    }
  }

  /**
   * The state of `getServicesByKeys` after the keys so far: the entries found
   * in `acc`, the remaining `keys` still to look up.
   */
  function ServicesByKeysFrom(t: Table, acc: OMap<Service>, keys: seq<string>, ignoreNonExisting: bool): Result<OMap<Service>>
    decreases |keys|
  {
    if keys == [] then Ok(acc)
    else
      match GetService(t, keys[0])
      case Ok(s) => ServicesByKeysFrom(t, Put(acc, keys[0], s), keys[1..], ignoreNonExisting)
      case Err(e) => if ignoreNonExisting then ServicesByKeysFrom(t, acc, keys[1..], ignoreNonExisting) else Err(e)
  }

  /** One request key consumed. */
  lemma ServicesByKeysStep(t: Table, acc: OMap<Service>, keys: seq<string>, ignoreNonExisting: bool)
    requires keys != []
    ensures ServicesByKeysFrom(t, acc, keys, ignoreNonExisting) ==
      var found := GetService(t, keys[0]);
      if found.Ok? then ServicesByKeysFrom(t, Put(acc, keys[0], found.value), keys[1..], ignoreNonExisting)
      else if ignoreNonExisting then ServicesByKeysFrom(t, acc, keys[1..], ignoreNonExisting)
      else Err(found.error)
  {
  }

  /**
   * `getServicesByKeys($keys, $ignoreNonExisting)`: the entries for the
   * requested keys, keyed by key in first-request order; a missing key is
   * skipped when `ignoreNonExisting` holds and otherwise ends the lookup
   * with its ServiceNotFoundException.
   */
  method GetServicesByKeys(t: Table, keys: seq<string>, ignoreNonExisting: bool) returns (r: Result<OMap<Service>>)
    ensures r == ServicesByKeysFrom(t, [], keys, ignoreNonExisting)
  {
    var services: OMap<Service> := [];
    var i := 0;
    while i < |keys|
      invariant 0 <= i <= |keys|
      invariant ServicesByKeysFrom(t, services, keys[i..], ignoreNonExisting) == ServicesByKeysFrom(t, [], keys, ignoreNonExisting)
    {
      var found := GetService(t, keys[i]);
      ServicesByKeysStep(t, services, keys[i..], ignoreNonExisting);
      assert keys[i..][0] == keys[i] && keys[i..][1..] == keys[i + 1..];
      if found.Ok? {
        services := Put(services, keys[i], found.value);
      } else if !ignoreNonExisting {
        return Err(found.error);
      }
      i := i + 1;
    }
    return Ok(services);
  }

  /**
   * What `getServicesByKeys` returns: with `ignoreNonExisting` it always
   * succeeds and holds exactly the requested keys the catalogue has; without
   * it, it succeeds exactly when every requested key exists. Either way each
   * key maps to the catalogue's entry for it.
   */
  lemma {:induction false} ServicesByKeysContents(t: Table, acc: OMap<Service>, keys: seq<string>, ignoreNonExisting: bool)
    ensures var r := ServicesByKeysFrom(t, acc, keys, ignoreNonExisting);
      && (r.Ok? <==> ignoreNonExisting || forall k :: k in keys ==> HasService(t, k))
      && (r.Ok? ==> forall k :: Get(r.value, k) == (if k in keys && HasService(t, k) then Some(GetService(t, k).value) else Get(acc, k)))
      && (r.Err? ==> r.error.ServiceNotFound?)
    decreases |keys|
  {
    if keys != [] {
      var k0 := keys[0];
      assert forall k :: k in keys <==> k == k0 || k in keys[1..];
      match GetService(t, k0)
      case Ok(s) =>
        ServicesByKeysContents(t, Put(acc, k0, s), keys[1..], ignoreNonExisting);
      case Err(e) =>
        ServicesByKeysContents(t, acc, keys[1..], ignoreNonExisting);
    }
  }
}
