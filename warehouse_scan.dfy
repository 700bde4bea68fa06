/** The warehouse controller: the guard chain of a parcel scan, which ends
    in one call of the status workflow for the scanned parcel's order, and
    the required-field check of warehouse creation. */
module WarehouseScan {
  import opened Common
  import opened Store
  import opened Workflow

  /** The actions a scan may carry. */
  const ScanActions: set<Action> := {ArrivedAtWarehouse, Sorted, Dispatched, OnHold}

  predicate IsScanAction(a: Action)
  {
    a in ScanActions
  }

  /** Only ON_HOLD needs a reason code at the scanner. */
  predicate NeedsReason(a: Action)
  {
    a == OnHold
  }

  /** The scan request body. */
  datatype ScanBody = ScanBody(
    parcelCode: Option<string>,
    action: Option<Action>,
    warehouseId: Option<WarehouseId>,
    reasonCode: Option<ReasonCode>,
    note: Option<string>,
    region: Option<string>)

  /** The parcel row a code resolves to. */
  datatype ParcelRef = ParcelRef(id: string, orderId: OrderId)

  datatype ScanError =
    | Unauthorized | Forbidden
    | ParcelCodeRequired | ActionRequired | InvalidScanAction | ReasonRequiredFor(action: Action)
    | NoWarehouseAssigned
    | ParcelNotFound | OrderNotFound
    | OtherWarehouse

  function ScanStatus(e: ScanError): int
  {
    match e
    case Unauthorized => 401
    case Forbidden => 403
    case OtherWarehouse => 403
    case ParcelNotFound => 404
    case OrderNotFound => 404
    case _ => 400
  }

  /** The guards that run before any lookup, in the source's order. */
  function Precheck(user: Option<AuthUser>, b: ScanBody): (r: Option<ScanError>)
    ensures !Authenticated(user) ==> r == Some(Unauthorized)
    ensures Authenticated(user) && user.value.role != Warehouse && user.value.role != Manager ==> r == Some(Forbidden)
    ensures r.None? <==>
              && Authenticated(user)
              && (user.value.role == Warehouse || user.value.role == Manager)
              && Truthy(b.parcelCode) && b.action.Some? && IsScanAction(b.action.value)
              && (NeedsReason(b.action.value) ==> Truthy(b.reasonCode))
              && (user.value.role == Warehouse ==> Truthy(user.value.warehouseId))
  {
    if !Authenticated(user) then Some(Unauthorized)
    else if user.value.role != Warehouse && user.value.role != Manager then Some(Forbidden)
    else if !Truthy(b.parcelCode) then Some(ParcelCodeRequired)
    else if b.action.None? then Some(ActionRequired)
    else if !IsScanAction(b.action.value) then Some(InvalidScanAction)
    else if NeedsReason(b.action.value) && !Truthy(b.reasonCode) then Some(ReasonRequiredFor(b.action.value))
    else if user.value.role == Warehouse && !Truthy(user.value.warehouseId) then Some(NoWarehouseAssigned)
    else None
  }

  /** A warehouse user always scans into its own warehouse; a manager into
      the one the body names, else the order's current one. */
  function EffectiveWarehouse(actor: Actor, b: ScanBody, o: Order): Option<WarehouseId>
  {
    if actor.role == Warehouse then actor.warehouseId else Coalesce(b.warehouseId, o.currentWarehouseId)
  }

  /** `scanPackage` up to the workflow call: the order to update and the
      request to make, or the guard that answers instead. `parcels` is the
      parcel table by code. */
  function ScanDecision(user: Option<AuthUser>, b: ScanBody, parcels: map<string, ParcelRef>, orders: map<OrderId, Order>)
    : (r: Result<(OrderId, UpdateArgs), ScanError>)
    ensures Precheck(user, b).Some? ==> r == Err(Precheck(user, b).value)
    ensures Precheck(user, b).None? && b.parcelCode.value !in parcels ==> r == Err(ParcelNotFound)
    ensures Precheck(user, b).None? && b.parcelCode.value in parcels && parcels[b.parcelCode.value].orderId !in orders ==>
              r == Err(OrderNotFound)
    ensures r.Ok? ==>
              && Precheck(user, b).None?
              && b.parcelCode.value in parcels
              && r.value.0 == parcels[b.parcelCode.value].orderId && r.value.0 in orders
              && r.value.1 == UpdateArgs(b.action.value, b.reasonCode, b.note, b.region,
                                         EffectiveWarehouse(ActorOf(user.value), b, orders[r.value.0]),
                                         Some(parcels[b.parcelCode.value].id), ActorOf(user.value))
    ensures (&& Precheck(user, b).None?
             && b.parcelCode.value in parcels && parcels[b.parcelCode.value].orderId in orders
             && !(user.value.role == Warehouse
                  && OutsideWarehouse(orders[parcels[b.parcelCode.value].orderId], user.value.warehouseId)))
            ==> r.Ok?
    ensures r == Err(OtherWarehouse) <==>
              && Precheck(user, b).None?
              && b.parcelCode.value in parcels && parcels[b.parcelCode.value].orderId in orders
              && user.value.role == Warehouse
              && OutsideWarehouse(orders[parcels[b.parcelCode.value].orderId], user.value.warehouseId)
  {
    var gate := Precheck(user, b);
    if gate.Some? then Err(gate.value)
    else
      var code := b.parcelCode.value;
      var actor := ActorOf(user.value);
      if code !in parcels then Err(ParcelNotFound)
      else
        var parcel := parcels[code];
        if parcel.orderId !in orders then Err(OrderNotFound)
        else
          var o := orders[parcel.orderId];
          var effective := EffectiveWarehouse(actor, b, o);
          if actor.role == Warehouse && Truthy(actor.warehouseId) && Truthy(o.currentWarehouseId)
             && o.currentWarehouseId != actor.warehouseId then
            Err(OtherWarehouse)
          else
            Ok((parcel.orderId, UpdateArgs(b.action.value, b.reasonCode, b.note, b.region,
                                           effective, Some(parcel.id), actor)))
  }

  /** The guards before the lookups do not depend on the parcel or order
      tables: a warehouse user without a warehouse is refused whatever the
      parcel code names. */
  lemma GuardsPrecedeLookups(user: Option<AuthUser>, b: ScanBody,
                             p1: map<string, ParcelRef>, o1: map<OrderId, Order>,
                             p2: map<string, ParcelRef>, o2: map<OrderId, Order>)
    requires Precheck(user, b).Some?
    ensures ScanDecision(user, b, p1, o1) == ScanDecision(user, b, p2, o2)
  {
  }

  /** A warehouse user's scan carries its own warehouse, whatever the body
      says; a manager's carries the body's, else the order's current one. */
  lemma ScanWarehouse(user: Option<AuthUser>, b: ScanBody, parcels: map<string, ParcelRef>, orders: map<OrderId, Order>)
    requires ScanDecision(user, b, parcels, orders).Ok?
    ensures var (id, a) := ScanDecision(user, b, parcels, orders).value;
            && (user.value.role == Warehouse ==> a.warehouseId == user.value.warehouseId && Truthy(a.warehouseId))
            && (user.value.role == Manager ==> a.warehouseId == Coalesce(b.warehouseId, orders[id].currentWarehouseId))
  {
  }

  /** A scan that passes its guards always passes the workflow's role,
      reason and warehouse-scope gates, so the workflow can only refuse it
      for a final order, an illegal transition, or (for a manager) a
      warehouse action with no warehouse known. */
  lemma ScanReachesWorkflowRules(user: Option<AuthUser>, b: ScanBody, parcels: map<string, ParcelRef>, orders: map<OrderId, Order>)
    requires ScanDecision(user, b, parcels, orders).Ok?
    ensures var (id, a) := ScanDecision(user, b, parcels, orders).value;
            var v := Validate(orders, [id], a);
            v.Err? ==> v.error.FinalOrders? || v.error.IllegalTransitions?
                       || (v.error.WarehouseRequired? && user.value.role == Manager)
  {
    var (id, a) := ScanDecision(user, b, parcels, orders).value;
    ScanPassesPreLoad(id, a);
    FoundCount([id], orders);
    var snaps := Snapshots([id], orders);
    assert snaps == [orders[id]];
    var scope := ScopeCheck(snaps, a.actor);
    assert scope.None? || scope.value.FinalOrders? by {
      if a.actor.role == Warehouse {
        assert !OutsideWarehouse(orders[id], a.actor.warehouseId);
        assert OutsideWarehouseOnes(snaps, a.actor.warehouseId) == [];
      }
    }
  }

  /** The request a passing scan builds clears the gates the workflow runs
      before loading orders. */
  lemma ScanPassesPreLoad(id: OrderId, a: UpdateArgs)
    requires a.actor.role == Warehouse || a.actor.role == Manager
    requires IsScanAction(a.action) && (NeedsReason(a.action) ==> Truthy(a.reasonCode))
    ensures PreLoadCheck([id], a).None?
    ensures a.action != DriverAssigned
    ensures a.actor.role == Warehouse && Truthy(a.warehouseId) ==> Truthy(Coalesce(a.warehouseId, a.actor.warehouseId))
  {
    assert RoleAllowed(a.actor.role, a.action);
  }

  /** `scanPackage`: the guards, then one `updateOrderStatus` for the
      parcel's order carrying the parcel's id. */
  method ScanPackage(db: Database, user: Option<AuthUser>, b: ScanBody, parcels: map<string, ParcelRef>, now: Timestamp)
    returns (status: int, reply: Option<Order>)
    requires db.Valid()
    modifies db
    ensures db.Valid()
    ensures db.users == old(db.users) && db.addresses == old(db.addresses) && db.orderCounter == old(db.orderCounter)
    ensures match ScanDecision(user, b, parcels, old(db.orders))
      case Err(e) =>
        status == ScanStatus(e) && reply.None? && db.orders == old(db.orders) && db.events == old(db.events)
      case Ok(req) =>
        match Validate(old(db.orders), [req.0], req.1)
        case Err(e) =>
          status == HttpStatus(e) && reply.None? && db.orders == old(db.orders) && db.events == old(db.events)
        case Ok(plan) =>
          && status == 200
          && db.orders == old(db.orders)[req.0 := Updated(old(db.orders)[req.0], req.1, plan, now)]
          && db.events == old(db.events) + [WorkflowEvent(req.0, req.1, plan)]
          && reply == Some(db.orders[req.0])
  {
    var decision := ScanDecision(user, b, parcels, db.orders);
    if decision.Err? {
      return ScanStatus(decision.error), None;
    }
    var r := UpdateOrderStatus(db, decision.value.0, decision.value.1, now);
    if r.Err? {
      status, reply := HttpStatus(r.error), None;
    } else {
      status, reply := 200, Some(r.value);
    }
  }

  /** Warehouse creation needs a name and a location; 201 otherwise. */
  function CreateWarehouseStatus(name: Option<string>, location: Option<string>): (code: int)
    ensures code == 400 <==> !Truthy(name) || !Truthy(location)
    ensures code == 201 <==> Truthy(name) && Truthy(location)
  {
    if !Truthy(name) || !Truthy(location) then 400 else 201
  }
}
