/**
 * The Drupal Commerce entities the plugin reads, as values: prices, postal
 * addresses, purchasable products with their physical fields, order items,
 * orders and shipments. Only the fields the plugin reads are kept.
 */
module Commerce {
  import opened Wrappers
  import opened OrderedMaps
  import opened PhpValues
  import opened Units

  /** The carrier quotes and the plugin prices in Australian dollars. */
  const AudCurrencyCode: string := "AUD"

  /** `Price`: an exact decimal amount and its currency code. */
  datatype Price = Price(number: real, currencyCode: string)

  /** An address field item: its country code and postal code as entered. */
  datatype PostalAddress = PostalAddress(countryCode: string, postalCode: string)

  /**
   * The purchased entity of an order item. `hasWeightField` and
   * `hasDimensionsField` say whether its bundle defines those fields at all;
   * `weight` is None when the weight field is empty, `dimensions` None when
   * the dimensions field is empty; a present dimensions item is the raw
   * field value (`length`, `width`, `height`, `unit`).
   */
  datatype PurchasedEntity = PurchasedEntity(
    hasWeightField: bool,
    weight: Option<Weight>,
    hasDimensionsField: bool,
    dimensions: Option<OMap<Value>>)

  /** An order item; its quantity is Commerce's decimal quantity. */
  datatype OrderItem = OrderItem(
    id: int,
    title: string,
    quantity: real,
    unitPrice: Price,
    purchasedEntity: Option<PurchasedEntity>)

  /** An order with its items in order, its total and its store's address. */
  datatype Order = Order(
    id: int,
    items: seq<OrderItem>,
    totalPrice: Price,
    storeAddress: PostalAddress)

  /** A shipment: its order and the shipping profile's address, None when that field is empty. */
  datatype Shipment = Shipment(order: Order, shippingAddress: Option<PostalAddress>)
}
