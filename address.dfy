/**
 * `Address`: read-only queries over a shipment's recipient and its store's
 * address, used to choose between domestic and international postage.
 */
module ShippingAddress {
  import opened Wrappers
  import opened PhpValues
  import opened Commerce

  datatype Address = Address(shipment: Shipment)

  /** `getAddress()`: the first address item of the shipping profile, if any. */
  function RecipientAddress(a: Address): Option<PostalAddress>
  {
    a.shipment.shippingAddress
  }

  /** `isEmpty()`. */
  predicate IsEmpty(a: Address)
  {
    RecipientAddress(a).None?
  }

  /**
   * `isDomestic()`: NULL without a recipient address, otherwise whether the
   * store and the recipient share a country code.
   */
  function IsDomestic(a: Address): (r: Option<bool>)
    ensures r.None? <==> IsEmpty(a)
    ensures r.Some? ==> (r.value <==> a.shipment.order.storeAddress.countryCode == a.shipment.shippingAddress.value.countryCode)
  {
    match RecipientAddress(a)
    case None => None
    case Some(recipient) => Some(a.shipment.order.storeAddress.countryCode == recipient.countryCode)
  }

  /** `getRecipientPostcode()`: NULL without an address, else the `(int)` cast of the postal code. */
  function RecipientPostcode(a: Address): (r: Option<int>)
    ensures r.None? <==> IsEmpty(a)
    ensures r.Some? && AllDigits(a.shipment.shippingAddress.value.postalCode) ==>
      r.value == DigitsValue(a.shipment.shippingAddress.value.postalCode)
  {
    match RecipientAddress(a)
    case None => None
    case Some(recipient) => Some(IntCast(recipient.postalCode))
  }

  /** `getShipperPostcode()`: the store's postal code, cast to int with no emptiness check. */
  function ShipperPostcode(a: Address): (r: int)
    ensures a.shipment.order.storeAddress.postalCode == "" ==> r == 0
  {
    IntCast(a.shipment.order.storeAddress.postalCode)
  }

  /** `getRecipientCountrycode()`: NULL without an address. */
  function RecipientCountryCode(a: Address): (r: Option<string>)
    ensures r.None? <==> IsEmpty(a)
    ensures r.Some? ==> r.value == a.shipment.shippingAddress.value.countryCode
  {
    match RecipientAddress(a)
    case None => None
    case Some(recipient) => Some(recipient.countryCode)
  }

  /**
   * The integer cast loses leading zeros: a Northern Territory postcode
   * such as "0800" is sent as 800, the same as "800".
   */
  lemma PostcodeDropsLeadingZero(a: Address, digits: string)
    requires AllDigits(digits)
    requires a.shipment.shippingAddress.Some? && a.shipment.shippingAddress.value.postalCode == "0" + digits
    ensures RecipientPostcode(a) == Some(DigitsValue(digits))
  {
    LeadingZerosIgnored(digits);
  }

  lemma DarwinPostcode(a: Address)
    requires a.shipment.shippingAddress == Some(PostalAddress("AU", "0800"))
    ensures RecipientPostcode(a) == Some(800)
  {
    assert "0800" == "0" + "800";
    EightHundred();
    PostcodeDropsLeadingZero(a, "800");
  }

  /** Whitespace before the store's postcode is skipped: " 2000" is sent as 2000. */
  lemma PaddedShipperPostcode(a: Address, pad: string, digits: string)
    requires forall i :: 0 <= i < |pad| ==> IsSpace(pad[i])
    requires AllDigits(digits)
    requires a.shipment.order.storeAddress.postalCode == pad + digits
    ensures ShipperPostcode(a) == DigitsValue(digits)
  {
    IntCastSkipsSpace(pad, digits);
  }

  /** The digits "800" spell 800. */
  lemma EightHundred()
    ensures AllDigits("800") && DigitsValue("800") == 800
  {
    assert "800"[..2] == "80" && "80"[..1] == "8" && "8"[..0] == "";
    assert DigitsValue("8") == 8;
    assert DigitsValue("80") == 80;
  }
}
