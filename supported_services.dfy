/**
 * `SupportedServices`, the assessment-side copy of the service catalogue.
 * Its private `services()` table lists the same thirteen entries, in the same
 * order and with the same fields, as `ServiceDefinitions::services()`, so the
 * model reuses that table; its lookups are the ones of `ServiceLookup`.
 */
module SupportedServices {
  import opened Wrappers
  import opened OrderedMaps
  import opened ServiceEnums
  import opened ServiceDefinitions
  import opened ServiceLookup

  /** The private `services()` table. */
  function Table(): (t: seq<Service>)
    ensures |t| == 13
    ensures forall i :: 0 <= i < |t| ==> t[i] == ServiceAt(i)
  {
    Services()
  }

  /** The shape `EntryKind` gives every entry of the table. */
  predicate DomesticParcelsFirst(t: seq<Service>)
  {
    forall i :: 0 <= i < |t| ==> t[i].serviceType == Parcel && (t[i].destination == Domestic <==> i < 10)
  }

  lemma TableShape()
    ensures DomesticParcelsFirst(Table())
  {
    forall i | 0 <= i < |Table()|
      ensures Table()[i].serviceType == Parcel && (Table()[i].destination == Domestic <==> i < 10)
    {
      EntryKind(i);
    }
  }

  lemma {:induction false} FilterParcels(t: seq<Service>, d: Destination)
    requires DomesticParcelsFirst(t) && |t| >= 10
    ensures GetServices(t, Some("parcel"), Some(DestinationName(d))) == Ok(if d == Domestic then t[..10] else t[10..])
    ensures GetServices(t, Some("parcel"), None) == Ok(t)
  {
    var lo, hi := if d == Domestic then 0 else 10, if d == Domestic then 10 else |t|;
    forall i | 0 <= i < |t|
      ensures Matches(Some(Parcel), Some(d))(t[i]) <==> lo <= i < hi
      ensures Matches(Some(Parcel), None)(t[i])
    {
    }
    FilterRange(t, Matches(Some(Parcel), Some(d)), lo, hi);
    FilterRange(t, Matches(Some(Parcel), None), 0, |t|);
    GetServicesByNames(t, Parcel, Some(d));
    GetServicesByNames(t, Parcel, None);
    assert ServiceTypeName(Parcel) == "parcel";
    assert d == Domestic ==> t[lo..hi] == t[..10];
    assert d != Domestic ==> t[lo..hi] == t[10..];
    assert t[0..|t|] == t;
  }

  /**
   * Every active entry is a parcel, and the first ten go to domestic
   * addresses, the other three abroad.
   */
  lemma {:induction false} ParcelsByDestination(d: Destination)
    ensures GetServices(Table(), Some("parcel"), Some(DestinationName(d)))
      == Ok(if d == Domestic then Table()[..10] else Table()[10..])
    ensures GetServices(Table(), Some("parcel"), None) == Ok(Table())
  {
    TableShape();
    FilterParcels(Table(), d);
  }

  /** Every letter entry is commented out of the table, so no letter service is found. */
  lemma {:induction false} NoLetterServices(dest: Option<string>)
    requires DestinationArgument(dest).Ok?
    ensures GetServices(Table(), Some("letter"), dest) == Ok([])
  {
    var t := Table();
    var df := DestinationArgument(dest).value;
    TableShape();
    forall i | 0 <= i < |t|
      ensures !Matches(Some(Letter), df)(t[i])
    {
    }
    FilterRange(t, Matches(Some(Letter), df), 0, 0);
  }
}
