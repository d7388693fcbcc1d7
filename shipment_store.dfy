/**
 * The shipment service's resolvers over its three tables. The database is a
 * `ShipmentStore` object whose tables are maps from id to row and whose
 * serial sequences are counters; the marketplace services are the answers
 * they would give (`Marketplace`), and the clock is a parameter.
 */
module ShipmentResolvers {
  import opened Options
  import opened ShipmentRows
  import opened ShipmentUpdate

  /** Why customer resolution, and so shipment creation, fails. */
  datatype ResolveError =
    | MarketplaceUserNotFound
      /** The INSERT of the marketplace user's row hit an existing primary key. */
    | DuplicateCustomer(customerId: nat)

  datatype Result<T> = Ok(value: T) | Err(error: ResolveError)

  /** An outbound call to one of the marketplace services. */
  datatype RemoteCall = GetUser(id: nat) | OrdersByUser(userId: nat) | PaymentsByOrder(orderId: nat)

  /** The WHERE clause of the shipment list queries. */
  datatype Filter =
    | AllShipments
    | ByCustomer(customerId: nat)
    | ByStatus(status: string)
    | ByVehicle(vehicleId: string)

  function ErrorMessage(e: ResolveError): string {
    match e
    case MarketplaceUserNotFound => "Marketplace user not found"
    case DuplicateCustomer(_) => "duplicate key value violates unique constraint"
  }

  /** Exact-match filtering; a shipment without a vehicle never matches a vehicle id. */
  predicate Matches(f: Filter, row: ShipmentRow) {
    match f
    case AllShipments => true
    case ByCustomer(c) => row.customerId == c
    case ByStatus(s) => row.status == s
    case ByVehicle(v) => row.vehicleId == Some(v)
  }

  /**
   * The outcome of `ensureCustomerFromMarketplace` on a customers table: the
   * stored row if the id is known; otherwise the row made from the
   * marketplace user, which fails when there is no user or when the user's
   * own id is already taken.
   */
  function ResolveCustomer(customers: map<nat, Customer>, customerId: nat, m: Marketplace): (r: Result<Customer>)
    ensures customerId in customers ==> r == Ok(customers[customerId])
    ensures r.Err? ==> customerId !in customers
    ensures r == Err(MarketplaceUserNotFound) <==> customerId !in customers && m.user(customerId).None?
    ensures r.Ok? && customerId !in customers ==>
      && m.user(customerId).Some? && r.value == MarketplaceCustomer(m.user(customerId).value)
      && r.value.customerId !in customers
  {
    if customerId in customers then Ok(customers[customerId])
    else
      match m.user(customerId)
      case None => Err(MarketplaceUserNotFound)
      case Some(u) =>
        if u.userId in customers then Err(DuplicateCustomer(u.userId)) else Ok(MarketplaceCustomer(u))
  }

  /** The remote calls customer resolution makes: a user lookup only for an unknown id. */
  function ResolveCalls(customers: map<nat, Customer>, customerId: nat): seq<RemoteCall> {
    if customerId in customers then [] else [GetUser(customerId)]
  }

  /**
   * The three outcomes of customer resolution: a known id gives its stored
   * row with no remote call; an unknown id asks the user service once and
   * fails when it has no such user, and otherwise yields a `Marketplace`
   * customer stored under the user's own id unless that id is taken.
   */
  lemma ResolveCustomerCases(customers: map<nat, Customer>, customerId: nat, m: Marketplace)
    ensures customerId in customers ==>
      ResolveCustomer(customers, customerId, m) == Ok(customers[customerId])
      && ResolveCalls(customers, customerId) == []
    ensures customerId !in customers ==> ResolveCalls(customers, customerId) == [GetUser(customerId)]
    ensures customerId !in customers && m.user(customerId).None? ==>
      ResolveCustomer(customers, customerId, m) == Err(MarketplaceUserNotFound)
      && ErrorMessage(ResolveCustomer(customers, customerId, m).error) == "Marketplace user not found"
    ensures customerId !in customers && m.user(customerId).Some? ==>
      var u := m.user(customerId).value;
      if u.userId in customers then ResolveCustomer(customers, customerId, m) == Err(DuplicateCustomer(u.userId))
      else
        var c := ResolveCustomer(customers, customerId, m).value;
        ResolveCustomer(customers, customerId, m).Ok? && c.customerId == u.userId && c.cType == "Marketplace"
        && c.phone == Some(OrDash(u.phone)) && c.address == Some(OrDash(u.address))
  {
  }

  /** `SELECT MAX(customer_id) FROM customers` on a table that is not empty. */
  method MaxKey(keys: set<nat>) returns (m: nat)
    requires keys != {}
    ensures m in keys
    ensures forall k :: k in keys ==> k <= m
  {
    m :| m in keys;
    var rest := keys - {m};
    while rest != {}
      invariant rest <= keys && m in keys
      invariant forall k :: k in keys && k !in rest ==> k <= m
      decreases rest
    {
      var k :| k in rest;
      if k > m {
        m := k;
      }
      rest := rest - {k};
    }
  }

  predicate NewestFirst(rs: seq<ShipmentView>) {
    forall i, j :: 0 <= i < j < |rs| ==> rs[i].createdAt >= rs[j].createdAt
  }

  /** Places `v` into a list after every row at least as new as `v`. */
  function InsertNewestFirst(rs: seq<ShipmentView>, v: ShipmentView): (r: seq<ShipmentView>)
    ensures multiset(r) == multiset(rs) + multiset{v}
    ensures forall x :: x in r <==> x in rs || x == v
  {
    if rs == [] then [v]
    else if rs[0].createdAt >= v.createdAt then
      assert rs == [rs[0]] + rs[1..];
      [rs[0]] + InsertNewestFirst(rs[1..], v)
    else [v] + rs
  }

  /** Inserting into a newest-first list keeps it newest first. */
  lemma {:induction false} InsertKeepsNewestFirst(rs: seq<ShipmentView>, v: ShipmentView)
    requires NewestFirst(rs)
    ensures NewestFirst(InsertNewestFirst(rs, v))
  {
    if rs != [] && rs[0].createdAt >= v.createdAt {
      var tail := InsertNewestFirst(rs[1..], v);
      InsertKeepsNewestFirst(rs[1..], v);
      forall k | 0 <= k < |tail| ensures rs[0].createdAt >= tail[k].createdAt {
        assert tail[k] in tail;
        if tail[k] != v {
          var i :| 0 <= i < |rs[1..]| && rs[1..][i] == tail[k];
          assert rs[i + 1] == tail[k];
        }
      }
      assert InsertNewestFirst(rs, v) == [rs[0]] + tail;
    }
  }

  /** A list in which some element occurs twice counts it twice. */
  lemma TwiceCounted(rs: seq<ShipmentView>, i: nat, j: nat)
    requires i < j < |rs| && rs[i] == rs[j]
    ensures multiset(rs)[rs[i]] >= 2
  {
    assert rs == rs[..j] + [rs[j]] + rs[j + 1..];
    assert rs[i] in rs[..j];
  }

  predicate CustomersKeyed(customers: map<nat, Customer>) {
    forall id :: id in customers ==> customers[id].customerId == id
  }

  predicate ShipmentsKeyed(shipments: map<nat, ShipmentRow>, last: nat) {
    forall id :: id in shipments ==> shipments[id].shipmentId == id && id <= last
  }

  predicate TrackingKeyed(trackingUpdates: map<nat, TrackingUpdate>, last: nat) {
    forall id :: id in trackingUpdates ==> trackingUpdates[id].trackingId == id && id <= last
  }

  class ShipmentStore {
    var customers: map<nat, Customer>
    var customerSeq: nat
    var shipments: map<nat, ShipmentRow>
    /** The last value the `shipments` serial handed out. */
    var shipmentSeq: nat
    var trackingUpdates: map<nat, TrackingUpdate>
    /** The last value the `tracking_updates` serial handed out. */
    var trackingSeq: nat

    /** Every row is stored under its own id, and serial ids never run ahead of their sequence. */
    ghost predicate Valid()
      reads this
    {
      CustomersKeyed(customers) && ShipmentsKeyed(shipments, shipmentSeq)
      && TrackingKeyed(trackingUpdates, trackingSeq)
    }

    constructor ()
      ensures Valid()
      ensures customers == map[] && shipments == map[] && trackingUpdates == map[]
      ensures customerSeq == 0 && shipmentSeq == 0 && trackingSeq == 0
    {
      customers, shipments, trackingUpdates := map[], map[], map[];
      customerSeq, shipmentSeq, trackingSeq := 0, 0, 0;
    }

    /** `shipment(id)` and the federation reference lookup: the row with that id, normalised. */
    function FindShipment(id: nat): (r: Option<ShipmentView>)
      reads this
      ensures r.Some? <==> id in shipments
      ensures r.Some? ==> RowOf(r.value) == shipments[id] && r.value.S_type == shipments[id].sType
    {
      if id in shipments then Some(NormalizeShipmentRow(shipments[id])) else None
    }

    /**
     * `shipments`, `shipmentsByCustomer`, `shipmentsByStatus`, `shipmentsByVehicle`:
     * every matching row once, normalised, newest first.
     */
    method SelectShipments(f: Filter) returns (rs: seq<ShipmentView>)
      requires Valid()
      ensures NewestFirst(rs)
      ensures forall i :: 0 <= i < |rs| ==>
        var id := rs[i].shipmentId;
        id in shipments && Matches(f, shipments[id]) && rs[i] == NormalizeShipmentRow(shipments[id])
      ensures forall id :: id in shipments && Matches(f, shipments[id]) ==> NormalizeShipmentRow(shipments[id]) in rs
      ensures forall i, j :: 0 <= i < j < |rs| ==> rs[i].shipmentId != rs[j].shipmentId
    {
      rs := [];
      var todo := shipments.Keys;
      while todo != {}
        invariant todo <= shipments.Keys
        invariant NewestFirst(rs)
        invariant forall v :: v in rs ==>
          v.shipmentId in shipments && v.shipmentId !in todo &&
          Matches(f, shipments[v.shipmentId]) && v == NormalizeShipmentRow(shipments[v.shipmentId])
        invariant forall id :: id in shipments && id !in todo && Matches(f, shipments[id]) ==>
          NormalizeShipmentRow(shipments[id]) in rs
        invariant forall v :: multiset(rs)[v] <= 1
        decreases todo
      {
        var id :| id in todo;
        if Matches(f, shipments[id]) {
          var v := NormalizeShipmentRow(shipments[id]);
          assert v !in rs;
          InsertKeepsNewestFirst(rs, v);
          rs := InsertNewestFirst(rs, v);
        }
        todo := todo - {id};
      }
      forall i, j | 0 <= i < j < |rs| ensures rs[i].shipmentId != rs[j].shipmentId {
        if rs[i].shipmentId == rs[j].shipmentId {
          assert rs[i] in rs && rs[j] in rs;
          TwiceCounted(rs, i, j);
        }
      }
    }

    /** `ensureCustomerFromMarketplace` */
    method EnsureCustomerFromMarketplace(customerId: nat, m: Marketplace)
      returns (r: Result<Customer>, calls: seq<RemoteCall>)
      requires Valid()
      modifies this`customers, this`customerSeq
      ensures Valid()
      ensures r == ResolveCustomer(old(customers), customerId, m)
      ensures calls == ResolveCalls(old(customers), customerId)
      ensures r.Err? || customerId in old(customers) ==>
        customers == old(customers) && customerSeq == old(customerSeq)
      ensures r.Ok? && customerId !in old(customers) ==>
        && r.value.customerId !in old(customers)
        && customers == old(customers)[r.value.customerId := r.value]
        && customerSeq in customers
        && forall k :: k in customers ==> k <= customerSeq
    {
      if customerId in customers {
        return Ok(customers[customerId]), [];
      }
      calls := [GetUser(customerId)];
      match m.user(customerId)
      case None =>
        r := Err(MarketplaceUserNotFound);
      case Some(u) =>
        if u.userId in customers {
          r := Err(DuplicateCustomer(u.userId));
        } else {
          var row := MarketplaceCustomer(u);
          customers := customers[u.userId := row];
          assert u.userId in customers.Keys;
          customerSeq := MaxKey(customers.Keys);
          r := Ok(row);
        }
    }

    /** `createShipment` */
    method CreateShipment(customerId: nat, originAddress: string, destinationAddress: string,
                          sType: string, weight: Weight, status: string, vehicleId: Option<string>,
                          m: Marketplace, now: nat)
      returns (r: Result<ShipmentView>, calls: seq<RemoteCall>)
      requires Valid()
      modifies this
      ensures Valid()
      ensures r.Err? <==> ResolveCustomer(old(customers), customerId, m).Err?
      ensures r.Err? ==>
        && r.error == ResolveCustomer(old(customers), customerId, m).error
        && calls == ResolveCalls(old(customers), customerId)
        && customers == old(customers) && customerSeq == old(customerSeq)
        && shipments == old(shipments) && shipmentSeq == old(shipmentSeq)
        && trackingUpdates == old(trackingUpdates) && trackingSeq == old(trackingSeq)
      ensures r.Ok? ==>
        var customer := ResolveCustomer(old(customers), customerId, m).value;
        var context := EnrichContext(m, customerId);
        var sid := old(shipmentSeq) + 1;
        var tid := old(trackingSeq) + 1;
        var row := ShipmentRow(sid, customerId, originAddress, destinationAddress, sType, weight,
                               status, OrNull(vehicleId), now);
        && r.value == NormalizeShipmentRow(row)
        && sid !in old(shipments) && shipments == old(shipments)[sid := row] && shipmentSeq == sid
        && tid !in old(trackingUpdates) && trackingSeq == tid
        && trackingUpdates == old(trackingUpdates)[tid := InitialTracking(tid, r.value, customer, context.0, context.1)]
        && calls == ResolveCalls(old(customers), customerId) + [OrdersByUser(customerId)]
                    + (if context.0.Some? then [PaymentsByOrder(context.0.value.orderId)] else [])
        && (customerId in old(customers) ==> customers == old(customers) && customerSeq == old(customerSeq))
        && (customerId !in old(customers) ==>
              && customers == old(customers)[customer.customerId := customer]
              && customerSeq in customers && (forall k :: k in customers ==> k <= customerSeq))
    {
      var resolved;
      resolved, calls := EnsureCustomerFromMarketplace(customerId, m);
      if resolved.Err? {
        return Err(resolved.error), calls;
      }
      var customer := resolved.value;

      var latestOrder, latestPayment, lookups := FetchContext(customerId, m);
      calls := calls + lookups;
      r := InsertShipment(customerId, originAddress, destinationAddress, sType, weight, status,
                          vehicleId, now, customer, latestOrder, latestPayment);
    }

    /** The latest order of the customer, then the latest payment of that order if there is one. */
    static method FetchContext(customerId: nat, m: Marketplace)
      returns (latestOrder: Option<Order>, latestPayment: Option<Payment>, calls: seq<RemoteCall>)
      ensures (latestOrder, latestPayment) == EnrichContext(m, customerId)
      ensures calls == [OrdersByUser(customerId)]
                       + (if latestOrder.Some? then [PaymentsByOrder(latestOrder.value.orderId)] else [])
    {
      latestOrder := Latest(m.ordersByUser(customerId));
      calls := [OrdersByUser(customerId)];
      latestPayment := None;
      if latestOrder.Some? {
        latestPayment := Latest(m.paymentsByOrder(latestOrder.value.orderId));
        calls := calls + [PaymentsByOrder(latestOrder.value.orderId)];
      }
    }

    /** The two INSERTs of `createShipment`: the shipment row, then its first tracking row. */
    method InsertShipment(customerId: nat, originAddress: string, destinationAddress: string,
                          sType: string, weight: Weight, status: string, vehicleId: Option<string>, now: nat,
                          customer: Customer, latestOrder: Option<Order>, latestPayment: Option<Payment>)
      returns (r: Result<ShipmentView>)
      requires Valid()
      modifies this`shipments, this`shipmentSeq, this`trackingUpdates, this`trackingSeq
      ensures Valid()
      ensures
        var sid := old(shipmentSeq) + 1;
        var tid := old(trackingSeq) + 1;
        var row := ShipmentRow(sid, customerId, originAddress, destinationAddress, sType, weight,
                               status, OrNull(vehicleId), now);
        && r == Ok(NormalizeShipmentRow(row))
        && sid !in old(shipments) && shipments == old(shipments)[sid := row] && shipmentSeq == sid
        && tid !in old(trackingUpdates) && trackingSeq == tid
        && trackingUpdates == old(trackingUpdates)[tid := InitialTracking(tid, r.value, customer, latestOrder, latestPayment)]
    {
      var row := InsertShipmentRow(customerId, originAddress, destinationAddress, sType, weight, status,
                                   vehicleId, now);
      var shipment := NormalizeShipmentRow(row);
      InsertTrackingRow(shipment, customer, latestOrder, latestPayment);
      r := Ok(shipment);
    }

    /** `INSERT INTO shipments ... RETURNING *`: the row under the next serial id. */
    method InsertShipmentRow(customerId: nat, originAddress: string, destinationAddress: string,
                             sType: string, weight: Weight, status: string, vehicleId: Option<string>, now: nat)
      returns (row: ShipmentRow)
      requires Valid()
      modifies this`shipments, this`shipmentSeq
      ensures Valid()
      ensures row == ShipmentRow(old(shipmentSeq) + 1, customerId, originAddress, destinationAddress, sType,
                                 weight, status, OrNull(vehicleId), now)
      ensures row.shipmentId !in old(shipments) && shipments == old(shipments)[row.shipmentId := row]
      ensures shipmentSeq == row.shipmentId
    {
      var sid := shipmentSeq + 1;
      row := ShipmentRow(sid, customerId, originAddress, destinationAddress, sType, weight,
                         status, OrNull(vehicleId), now);
      assert ShipmentsKeyed(shipments[sid := row], sid);
      shipmentSeq, shipments := sid, shipments[sid := row];
    }

    /** `INSERT INTO tracking_updates ...`: the first tracking row under the next serial id. */
    method InsertTrackingRow(shipment: ShipmentView, customer: Customer,
                             latestOrder: Option<Order>, latestPayment: Option<Payment>)
      requires Valid()
      modifies this`trackingUpdates, this`trackingSeq
      ensures Valid()
      ensures trackingSeq == old(trackingSeq) + 1 && trackingSeq !in old(trackingUpdates)
      ensures trackingUpdates ==
        old(trackingUpdates)[trackingSeq := InitialTracking(trackingSeq, shipment, customer, latestOrder, latestPayment)]
    {
      var tid := trackingSeq + 1;
      var tracking := InitialTracking(tid, shipment, customer, latestOrder, latestPayment);
      assert TrackingKeyed(trackingUpdates[tid := tracking], tid);
      trackingSeq, trackingUpdates := tid, trackingUpdates[tid := tracking];
    }

    /** `updateShipment` */
    method UpdateShipment(id: nat, args: seq<UpdateArg>) returns (r: Option<ShipmentView>)
      requires Valid()
      requires DistinctKeys(args) && PresentFit(args)
      modifies this`shipments
      ensures Valid()
      ensures Applicable(Present(args))
      ensures id !in old(shipments) ==> r == None && shipments == old(shipments)
      ensures id in old(shipments) ==>
        var row := ApplyArgs(old(shipments)[id], Present(args));
        && shipments == old(shipments)[id := row]
        && r == Some(NormalizeShipmentRow(row))
      ensures Present(args) == [] ==> shipments == old(shipments)
    {
      var fields, values, paramCount := BuildSetClauses(args);
      BuiltStatementApplies(shipments, id, args, fields, values, paramCount);
      if |fields| == 0 {
        r := FindShipment(id);
        return;
      }
      var outcome := ExecuteUpdate(shipments, UpdateStatement(fields, paramCount, values + [Int(id)]));
      shipments := outcome.value.0;
      r := if outcome.value.1.Some? then Some(NormalizeShipmentRow(outcome.value.1.value)) else None;
    }

    /** `deleteShipment`: whether a row existed; it is gone afterwards. */
    method DeleteShipment(id: nat) returns (deleted: bool)
      requires Valid()
      modifies this`shipments
      ensures Valid()
      ensures deleted <==> id in old(shipments)
      ensures shipments == old(shipments) - {id}
      ensures FindShipment(id) == None
    {
      deleted := id in shipments;
      shipments := shipments - {id};
    }
  }
}
