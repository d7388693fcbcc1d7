/**
 * Rows of the shipment service's three tables, the replies of the three
 * marketplace services, and the pure pieces of the resolvers: the row
 * normalisation, the "latest" selection and the tracking row's text fields.
 */
module ShipmentRows {
  import opened Options
  import opened Decimal

  /** The shipment weight is a float in the source; it is carried, never inspected. */
  datatype Weight = Weight(text: string)

  /** A row of `customers`. Nullable text columns are options. */
  datatype Customer = Customer(
    customerId: nat,
    name: string,
    email: string,
    phone: Option<string>,
    address: Option<string>,
    cType: string)

  /** A row of `shipments` as the database returns it (the column `s_type` is lower-cased). */
  datatype ShipmentRow = ShipmentRow(
    shipmentId: nat,
    customerId: nat,
    originAddress: string,
    destinationAddress: string,
    sType: string,
    weight: Weight,
    status: string,
    vehicleId: Option<string>,
    createdAt: nat)

  /** A shipment as the GraphQL layer returns it: every column, plus `S_type`. */
  datatype ShipmentView = ShipmentView(
    shipmentId: nat,
    customerId: nat,
    originAddress: string,
    destinationAddress: string,
    s_type: string,
    S_type: string,
    weight: Weight,
    status: string,
    vehicleId: Option<string>,
    createdAt: nat)

  /** A row of `tracking_updates`. */
  datatype TrackingUpdate = TrackingUpdate(
    trackingId: nat,
    shipmentId: nat,
    location: string,
    status: string,
    recipientName: Option<string>,
    recipientPhone: Option<string>,
    recipientAddress: Option<string>,
    itemName: Option<string>,
    barcode: Option<string>)

  /** The user record of the marketplace user service; `phone` and `address` may be missing. */
  datatype MarketplaceUser = MarketplaceUser(
    userId: nat,
    name: string,
    email: string,
    phone: Option<string>,
    address: Option<string>)

  datatype Order = Order(orderId: nat, totalAmount: nat, status: string, orderDate: string)

  datatype Payment = Payment(paymentId: nat, amount: nat, paymentStatus: string, paymentDate: string)

  /**
   * What a list-returning marketplace call yields: `Failed` stands for a reply
   * carrying `errors`, a reply without the list, and a thrown request error.
   */
  datatype Reply<T> = Failed | Listed(items: seq<T>)

  /** The three remote services, as the answers they would give. */
  datatype Marketplace = Marketplace(
    user: nat -> Option<MarketplaceUser>,
    ordersByUser: nat -> Reply<Order>,
    paymentsByOrder: nat -> Reply<Payment>)

  const CustomerTypeMarketplace := "Marketplace"
  const InitialLocation := "Order received"

  /** The database row behind a GraphQL shipment. */
  function RowOf(v: ShipmentView): ShipmentRow {
    ShipmentRow(v.shipmentId, v.customerId, v.originAddress, v.destinationAddress,
                v.s_type, v.weight, v.status, v.vehicleId, v.createdAt)
  }

  /** `normalizeShipmentRow`: keeps every column and adds `S_type` as a copy of `s_type`. */
  function NormalizeShipmentRow(row: ShipmentRow): (v: ShipmentView)
    ensures RowOf(v) == row
    ensures v.S_type == row.sType
  {
    ShipmentView(row.shipmentId, row.customerId, row.originAddress, row.destinationAddress,
                 row.sType, row.sType, row.weight, row.status, row.vehicleId, row.createdAt)
  }

  /** `fetchLatestOrderByUser` / `fetchLatestPaymentByOrder`: the first listed item, if any. */
  function Latest<T>(reply: Reply<T>): (r: Option<T>)
    ensures r.Some? <==> reply.Listed? && |reply.items| > 0
    ensures r.Some? ==> r.value == reply.items[0]
  {
    match reply
    case Failed => None
    case Listed(items) => if |items| == 0 then None else Some(items[0])
  }

  /** JavaScript `x || '-'` on an optional string: missing or empty becomes `-`. */
  function OrDash(s: Option<string>): (r: string)
    ensures r != ""
    ensures s.Some? && s.value != "" ==> r == s.value
    ensures s.None? || s.value == "" ==> r == "-"
  {
    if s.Some? && s.value != "" then s.value else "-"
  }

  /** JavaScript `x || null` on an optional string: missing or empty becomes null. */
  function OrNull(s: Option<string>): (r: Option<string>)
    ensures r.Some? <==> s.Some? && s.value != ""
    ensures r.Some? ==> r == s
  {
    if s.Some? && s.value != "" then s else None
  }

  /** The customer row materialised from a marketplace user. */
  function MarketplaceCustomer(u: MarketplaceUser): (c: Customer)
    ensures c.customerId == u.userId && c.name == u.name && c.email == u.email
    ensures c.cType == "Marketplace"
    ensures c.phone.Some? && c.phone.value != "" && c.address.Some? && c.address.value != ""
    ensures c.phone == Some(if u.phone == Some("") || u.phone.None? then "-" else u.phone.value)
    ensures c.address == Some(if u.address == Some("") || u.address.None? then "-" else u.address.value)
  {
    Customer(u.userId, u.name, u.email, Some(OrDash(u.phone)), Some(OrDash(u.address)),
             CustomerTypeMarketplace)
  }

  /** The order summary carried in a tracking row's `item_name`. */
  function OrderSummary(o: Order): (s: string)
    ensures ParseOrderSummary(s) == Some((o.orderId, o.totalAmount))
  {
    ValueOfNatToString(o.orderId);
    ValueOfNatToString(o.totalAmount);
    ParseSummaryText(NatToString(o.orderId), NatToString(o.totalAmount));
    "Order " + NatToString(o.orderId) + " - Total " + NatToString(o.totalAmount)
  }

  /** The payment reference carried in a tracking row's `barcode`. */
  function PaymentReference(p: Payment): (s: string)
    ensures ParsePaymentReference(s) == Some(p.paymentId)
  {
    var s := "PAY-" + NatToString(p.paymentId);
    assert s[..4] == "PAY-" && s[4..] == NatToString(p.paymentId);
    ParseNatToString(p.paymentId);
    s
  }

  /** Reads an order summary back into its order id and total. */
  function ParseOrderSummary(s: string): Option<(nat, nat)> {
    if |s| < 6 || s[..6] != "Order " then None else ParseSummaryRest(s[6..])
  }

  /** Reads `<id> - Total <total>`. */
  function ParseSummaryRest(rest: string): Option<(nat, nat)> {
    var k := DigitSpan(rest);
    if k == 0 || |rest| < k + 9 || rest[k..k + 9] != " - Total " then None
    else
      match ParseNat(rest[k + 9..])
      case None => None
      case Some(total) => Some((ValueOf(rest[..k]), total))
  }

  /** Reads a payment reference back into its payment id. */
  function ParsePaymentReference(s: string): Option<nat> {
    if |s| < 4 || s[..4] != "PAY-" then None else ParseNat(s[4..])
  }

  /** Any two digit strings placed in the summary text read back as their values. */
  lemma ParseSummaryText(d: string, t: string)
    requires |d| >= 1 && AllDigits(d) && |t| >= 1 && AllDigits(t)
    ensures ParseOrderSummary("Order " + d + " - Total " + t) == Some((ValueOf(d), ValueOf(t)))
  {
    var rest := d + " - Total " + t;
    var s := "Order " + rest;
    assert "Order " + d + " - Total " + t == s;
    assert s[..6] == "Order " && s[6..] == rest;
    ParseSummaryRestText(d, t);
  }

  lemma ParseSummaryRestText(d: string, t: string)
    requires |d| >= 1 && AllDigits(d) && |t| >= 1 && AllDigits(t)
    ensures ParseSummaryRest(d + " - Total " + t) == Some((ValueOf(d), ValueOf(t)))
  {
    var rest := d + (" - Total " + t);
    assert d + " - Total " + t == rest;
    DigitSpanConcat(d, " - Total " + t);
    var k := |d|;
    assert rest[..k] == d;
    assert rest[k..k + 9] == " - Total ";
    assert rest[k + 9..] == t;
  }

  /** `item_name`: an order summary exactly when there is a latest order. */
  function ItemName(latestOrder: Option<Order>): (r: Option<string>)
    ensures r.Some? <==> latestOrder.Some?
  {
    match latestOrder
    case None => None
    case Some(o) => Some(OrderSummary(o))
  }

  /** `barcode`: a payment reference exactly when there is a latest payment. */
  function Barcode(latestPayment: Option<Payment>): (r: Option<string>)
    ensures r.Some? <==> latestPayment.Some?
  {
    match latestPayment
    case None => None
    case Some(p) => Some(PaymentReference(p))
  }

  /** The tracking row written right after a shipment is created. */
  function InitialTracking(trackingId: nat, shipment: ShipmentView, customer: Customer,
                           latestOrder: Option<Order>, latestPayment: Option<Payment>): (t: TrackingUpdate)
    ensures t.trackingId == trackingId && t.shipmentId == shipment.shipmentId
  {
    TrackingUpdate(trackingId, shipment.shipmentId, InitialLocation, shipment.status,
                   OrNull(Some(customer.name)), OrNull(customer.phone), OrNull(customer.address),
                   ItemName(latestOrder), Barcode(latestPayment))
  }

  /**
   * The first tracking row is at "Order received" with the shipment's status,
   * addressed to the customer (empty texts become null), and names the latest
   * order and its latest payment exactly when there are ones.
   */
  lemma InitialTrackingContents(trackingId: nat, shipment: ShipmentView, customer: Customer,
                                latestOrder: Option<Order>, latestPayment: Option<Payment>)
    ensures var t := InitialTracking(trackingId, shipment, customer, latestOrder, latestPayment);
      && t.location == "Order received" && t.status == shipment.status
      && t.recipientName == (if customer.name == "" then None else Some(customer.name))
      && t.recipientPhone == OrNull(customer.phone) && t.recipientAddress == OrNull(customer.address)
      && (t.itemName.Some? <==> latestOrder.Some?)
      && (t.itemName.Some? ==>
            ParseOrderSummary(t.itemName.value) == Some((latestOrder.value.orderId, latestOrder.value.totalAmount)))
      && (t.barcode.Some? <==> latestPayment.Some?)
      && (t.barcode.Some? ==> ParsePaymentReference(t.barcode.value) == Some(latestPayment.value.paymentId))
  {
  }

  /** `Shipment.customer`: a reference to the customer, or null for a falsy id (0). */
  function CustomerReference(row: ShipmentRow): (r: Option<nat>)
    ensures r.None? <==> row.customerId == 0
    ensures r.Some? ==> r.value == row.customerId
  {
    if row.customerId == 0 then None else Some(row.customerId)
  }

  /** `Shipment.vehicle`: a reference to the vehicle, or null for a missing or empty id. */
  function VehicleReference(row: ShipmentRow): (r: Option<string>)
    ensures r.None? <==> row.vehicleId.None? || row.vehicleId.value == ""
    ensures r.Some? ==> r == row.vehicleId
  {
    OrNull(row.vehicleId)
  }

  /** Orders of `customerId`, then (only if there is one) the payments of the latest order. */
  function EnrichContext(m: Marketplace, customerId: nat): (r: (Option<Order>, Option<Payment>))
    ensures r.0 == Latest(m.ordersByUser(customerId))
    ensures r.0.None? ==> r.1.None?
    ensures r.0.Some? ==> r.1 == Latest(m.paymentsByOrder(r.0.value.orderId))
  {
    var order := Latest(m.ordersByUser(customerId));
    var payment := if order.Some? then Latest(m.paymentsByOrder(order.value.orderId)) else None;
    (order, payment)
  }
}
