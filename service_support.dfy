/**
 * `ServiceSupport`: lookups over `ServiceDefinitions::services()` plus the
 * supported package types and destinations and the parcel size limits.
 */
module ServiceSupport {
  import opened Wrappers
  import opened OrderedMaps
  import opened ServiceEnums
  import opened ServiceDefinitions
  import ServiceLookup

  /**
   * `hasService` as written: it calls `$this->services()`, which the class
   * does not declare, so PHP stops with a fatal "undefined method" error
   * whatever the key.
   */
  function HasServiceAsWritten(key: string): (r: Result<bool>)
    ensures r.Err? && r.error.Fatal?
  {
    Err(Fatal("Call to undefined method ServiceSupport::services()"))
  }

  /** `getService` as written: its `hasService` guard always fails fatally. */
  function GetServiceAsWritten(key: string): (r: Result<Service>)
    ensures r.Err? && r.error.Fatal?
    ensures r.error == HasServiceAsWritten(key).error
  {
    Err(HasServiceAsWritten(key).error)
  }

  /** A key the table holds is still not found by the code as written. */
  lemma KnownKeyUnreachableAsWritten()
    ensures ServiceLookup.HasService(Services(), "AUS_SERVICE_OPTION_STANDARD")
    ensures GetServiceAsWritten("AUS_SERVICE_OPTION_STANDARD").Err?
  {
    assert Services()[0] == ServiceAt(0);
  }

  /** `hasService` as intended: the key is one of `ServiceDefinitions::services()`. */
  predicate HasService(key: string)
  {
    ServiceLookup.HasService(Services(), key)
  }

  /** `getService` with the intended guard. */
  function GetService(key: string): (r: Result<Service>)
    ensures r.Ok? <==> HasService(key)
    ensures r.Ok? ==> r.value in Services() && r.value.key == key
    ensures r.Err? ==> r.error == ServiceNotFound("Requested service '" + key + "' does not exist.")
  {
    ServiceLookup.GetService(Services(), key)
  }

  /** With the intended guard every key of the table is found, under that key. */
  lemma {:induction false} EveryKeyFound(i: nat)
    requires i < ServiceCount
    ensures GetService(ServiceAt(i).key) == Ok(ServiceAt(i))
  {
    ServiceKeysDistinct();
    var t := Services();
    assert t[i].key == ServiceAt(i).key;
    var r := GetService(ServiceAt(i).key);
    var j :| 0 <= j < |t| && t[j] == r.value;
    assert t[j] == ServiceAt(j);
  }

  /**
   * `getServicesByKeys` as written: the first lookup reaches the broken
   * `hasService`, whose fatal error no `catch` of ServiceNotFoundException
   * stops, so only an empty key list succeeds.
   */
  function GetServicesByKeysAsWritten(keys: seq<string>, ignoreNonExisting: bool): (r: Result<OMap<Service>>)
    ensures r.Ok? <==> keys == []
    ensures r.Ok? ==> r.value == []
    ensures r.Err? ==> r.error.Fatal?
  {
    if keys == [] then Ok([])
    else Err(GetServiceAsWritten(keys[0]).error)
  }

  /** `supportedPackageTypes()`: the two service type strings, parcel first. */
  function SupportedPackageTypes(): (r: seq<string>)
    ensures r == [ServiceTypeName(Parcel), ServiceTypeName(Letter)]
    ensures forall s :: s in r <==> ParseServiceType(s).Some?
  {
    ["parcel", "letter"]
  }

  /** `supportedDestinations()`: the two destination strings, domestic first. */
  function SupportedDestinations(): (r: seq<string>)
    ensures r == [DestinationName(Domestic), DestinationName(International)]
    ensures forall s :: s in r <==> ParseDestination(s).Some?
  {
    ["domestic", "international"]
  }

  /**
   * `getMaxParcelDimensions($destination)`: the limits for a known
   * destination string, ServiceSupportException for any other.
   */
  function GetMaxParcelDimensions(destination: string): (r: Result<ParcelLimits>)
    ensures r.Ok? <==> destination in SupportedDestinations()
    ensures r.Ok? ==> exists d :: destination == DestinationName(d) && r.value == MaxParcelDimensions(d)
    ensures r.Err? ==> r.error == ServiceSupportError("Unknown package destination '" + destination + "'.")
  {
    match ParseDestination(destination)
    case Some(d) =>
      assert destination == DestinationName(d);
      Ok(MaxParcelDimensions(d))
    case None => Err(ServiceSupportError("Unknown package destination '" + destination + "'."))
  }
}
