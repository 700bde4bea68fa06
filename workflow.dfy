/** The order status workflow: the role/action table, the action/status map,
    the transition graph, the batch validation and the two atomic commits
    (`updateOrderStatusMany` and `assignOrdersToDriver`), with the
    single-order wrapper `updateOrderStatus`. */
module Workflow {
  import opened Common
  import opened Store

  // ---------- 1) who can do what ----------

  /** The actions each role may ever invoke, in the table's order. */
  function AllowedActions(role: Role): seq<Action>
  {
    match role
    case Customer => []
    case Driver => [
      PickupStarted, PickupAttempt, PickupConfirmed, PickupFailed,
      DeliveryStarted, DeliveryAttempt, Action.Delivered, DeliveryFailed,
      ReturnRequested, ReturnDispatched, ReturnDelivered]
    case Warehouse => [ArrivedAtWarehouse, Sorted, Dispatched, OnHold]
    case Manager => [
      DriverAssigned, DriverRejected,
      PickupStarted, PickupAttempt, PickupConfirmed, PickupFailed,
      ArrivedAtWarehouse, Sorted, Dispatched,
      DeliveryStarted, DeliveryAttempt, Action.Delivered, DeliveryFailed,
      OnHold, Action.Cancelled,
      ReturnRequested, ReturnDispatched, ReturnDelivered]
  }

  predicate RoleAllowed(role: Role, action: Action)
  {
    action in AllowedActions(role)
  }

  // ---------- 2) action -> resulting status ----------

  /** The status an action moves an order to; None for the informational
      actions (attempts, SORTED, DRIVER_REJECTED, ORDER_CREATED). */
  function StatusFromAction(action: Action): Option<Status>
  {
    match action
    case DriverAssigned => Some(Assigned)
    case PickupStarted => Some(PickupInProgress)
    case PickupConfirmed => Some(PickedUp)
    case ArrivedAtWarehouse => Some(AtWarehouse)
    case Dispatched => Some(InTransit)
    case DeliveryStarted => Some(OutForDelivery)
    case Delivered => Some(Status.Delivered)
    case PickupFailed | DeliveryFailed | OnHold => Some(Exception)
    case Cancelled => Some(Status.Cancelled)
    case ReturnRequested | ReturnDispatched => Some(ReturnInProgress)
    case ReturnDelivered => Some(Returned)
    case PickupAttempt | DeliveryAttempt | Sorted | DriverRejected | OrderCreated => None
  }

  // ---------- 3) allowed status transitions ----------

  /** The transition graph: `next` is an allowed successor of `current`.
      The three final statuses have no successor. */
  predicate IsLegalTransition(current: Status, next: Status)
  {
    match current
    case Pending => next == Assigned || next == PickupInProgress || next == Status.Cancelled || next == Exception
    case Assigned => next == PickupInProgress || next == Status.Cancelled || next == Exception
    case PickupInProgress => next == PickedUp || next == Exception || next == Status.Cancelled
    case PickedUp => next == AtWarehouse || next == InTransit || next == Exception
    case AtWarehouse => next == InTransit || next == Exception
    case InTransit => next == OutForDelivery || next == Exception
    case OutForDelivery => next == Status.Delivered || next == Exception || next == ReturnInProgress
    case Exception =>
      next == PickupInProgress || next == InTransit || next == OutForDelivery
      || next == ReturnInProgress || next == Status.Cancelled
    case ReturnInProgress => next == Returned || next == Exception
    case Returned => false
    case Delivered => false
    case Cancelled => false
  }

  /** The adjacency table as a set of successors; a status is final exactly
      when nothing follows it. */
  function Successors(current: Status): (r: set<Status>)
    ensures forall next :: next in r <==> IsLegalTransition(current, next)
    ensures r == {} <==> IsFinal(current)
  {
    match current
    case Pending => {Assigned, PickupInProgress, Status.Cancelled, Exception}
    case Assigned => {PickupInProgress, Status.Cancelled, Exception}
    case PickupInProgress => {PickedUp, Exception, Status.Cancelled}
    case PickedUp => {AtWarehouse, InTransit, Exception}
    case AtWarehouse => {InTransit, Exception}
    case InTransit => {OutForDelivery, Exception}
    case OutForDelivery => {Status.Delivered, Exception, ReturnInProgress}
    case Exception => {PickupInProgress, InTransit, OutForDelivery, ReturnInProgress, Status.Cancelled}
    case ReturnInProgress => {Returned, Exception}
    case Returned => {}
    case Delivered => {}
    case Cancelled => {}
  }

  predicate RequiresReason(action: Action)
  {
    action == PickupFailed || action == DeliveryFailed || action == OnHold
    || action == Action.Cancelled || action == ReturnRequested
  }

  /** The actions that stamp `lastExceptionReason` / `lastExceptionAt`. */
  predicate IsExceptionAction(action: Action)
  {
    action == PickupFailed || action == DeliveryFailed || action == OnHold
    || action == Action.Cancelled || action == ReturnRequested
  }

  const FinalStatuses: seq<Status> := [Status.Delivered, Returned, Status.Cancelled]
  const AssignableStatuses: seq<Status> := [Pending, Exception]
  const WarehouseActions: seq<Action> := [ArrivedAtWarehouse, Sorted, Dispatched]

  predicate IsFinal(s: Status) { s in FinalStatuses }
  predicate IsAssignable(s: Status) { s in AssignableStatuses }
  predicate IsWarehouseAction(a: Action) { a in WarehouseActions }

  // ---------- errors ----------

  datatype WorkflowError =
    | EmptyOrderIds
    | RoleCannotPerform(role: Role, action: Action)
    | ReasonRequired(action: Action)
    | OrdersNotFound(missing: seq<OrderId>)
    | FinalOrders(orders: seq<(OrderId, Status)>)
    | DriverNotAssigned(orderIds: seq<OrderId>)
    | NotInWarehouse(orderIds: seq<OrderId>)
    | UseAssignWorkflow
    | IllegalTransitions(edges: seq<(OrderId, Status, Status)>)
    | WarehouseRequired(action: Action)
    | DriverInvalid
    | SomeOrdersNotFound
    | NotAssignable(orders: seq<(OrderId, Status)>)

  /** The HTTP status code each error carries. */
  function HttpStatus(e: WorkflowError): int
  {
    match e
    case RoleCannotPerform(_, _) => 403
    case DriverNotAssigned(_) => 403
    case NotInWarehouse(_) => 403
    case OrdersNotFound(_) => 404
    case _ => 400
  }

  // ---------- the request ----------

  /** Everything but the order ids of an update call. */
  datatype UpdateArgs = UpdateArgs(
    action: Action,
    reasonCode: Option<ReasonCode>,
    note: Option<string>,
    region: Option<string>,
    warehouseId: Option<WarehouseId>,
    parcelId: Option<string>,
    actor: Actor)

  /** What an approved batch writes: the resulting status (if any), the
      effective warehouse and the warehouse put on the tracking rows. */
  datatype Plan = Plan(
    next: Option<Status>,
    effectiveWarehouseId: Option<WarehouseId>,
    trackingWarehouseId: Option<WarehouseId>)

  // ---------- batch selections ----------

  /** The ids of a batch that resolve to order rows. */
  function Found(ids: seq<OrderId>, orders: map<OrderId, Order>): set<OrderId>
  {
    set id | id in ids && id in orders
  }

  /** The row count of the load equals the number of requested ids exactly
      when the ids are distinct and all resolve. */
  lemma {:induction false} FoundCount(ids: seq<OrderId>, orders: map<OrderId, Order>)
    ensures |Found(ids, orders)| <= |ids|
    ensures |Found(ids, orders)| == |ids|
        <==> Distinct(ids) && forall k :: 0 <= k < |ids| ==> ids[k] in orders
  {
    if ids != [] {
      var init := ids[..|ids| - 1];
      var last := ids[|ids| - 1];
      FoundCount(init, orders);
      assert forall x :: x in ids <==> x in init || x == last;
      var f, fi := Found(ids, orders), Found(init, orders);
      if last in orders && last !in fi {
        assert f == fi + {last};
        assert |f| == |fi| + 1;
      } else {
        assert f == fi;
      }
      assert ids == init + [last];
      DistinctSnoc(init, last);
    }
  }

  function Snapshots(ids: seq<OrderId>, orders: map<OrderId, Order>): (s: seq<Order>)
    requires forall k :: 0 <= k < |ids| ==> ids[k] in orders
    ensures |s| == |ids| && forall k :: 0 <= k < |ids| ==> s[k] == orders[ids[k]]
  {
    seq(|ids|, k requires 0 <= k < |ids| => orders[ids[k]])
  }

  function IdsOf(s: seq<Order>): (r: seq<OrderId>)
    ensures |r| == |s| && forall k :: 0 <= k < |s| ==> r[k] == s[k].id
  {
    seq(|s|, k requires 0 <= k < |s| => s[k].id)
  }

  function IdsWithStatus(s: seq<Order>): (r: seq<(OrderId, Status)>)
    ensures |r| == |s| && forall k :: 0 <= k < |s| ==> r[k] == (s[k].id, s[k].status)
  {
    seq(|s|, k requires 0 <= k < |s| => (s[k].id, s[k].status))
  }

  /** The requested ids that resolve to no order (duplicates kept). */
  function MissingIds(ids: seq<OrderId>, orders: map<OrderId, Order>): (r: seq<OrderId>)
    ensures forall id :: id in r <==> id in ids && id !in orders
  {
    Filter(ids, id => id !in orders)
  }

  function FinalOnes(snaps: seq<Order>): (r: seq<Order>)
    ensures forall o :: o in r <==> o in snaps && IsFinal(o.status)
    ensures r == [] <==> forall k :: 0 <= k < |snaps| ==> !IsFinal(snaps[k].status)
  {
    Filter(snaps, (o: Order) => IsFinal(o.status))
  }

  function NotAssignedTo(snaps: seq<Order>, driverId: UserId): (r: seq<Order>)
    ensures forall o :: o in r <==> o in snaps && o.assignedDriverId != Some(driverId)
    ensures r == [] <==> forall k :: 0 <= k < |snaps| ==> snaps[k].assignedDriverId == Some(driverId)
  {
    Filter(snaps, (o: Order) => o.assignedDriverId != Some(driverId))
  }

  /** An order is outside warehouse `wh` when its own warehouse is set and differs. */
  predicate OutsideWarehouse(o: Order, wh: Option<WarehouseId>)
  {
    Truthy(o.currentWarehouseId) && o.currentWarehouseId != wh
  }

  function OutsideWarehouseOnes(snaps: seq<Order>, wh: Option<WarehouseId>): (r: seq<Order>)
    ensures forall o :: o in r <==> o in snaps && OutsideWarehouse(o, wh)
    ensures r == [] <==> forall k :: 0 <= k < |snaps| ==> !OutsideWarehouse(snaps[k], wh)
  {
    Filter(snaps, (o: Order) => OutsideWarehouse(o, wh))
  }

  function NotAssignableOnes(snaps: seq<Order>): (r: seq<Order>)
    ensures forall o :: o in r <==> o in snaps && !IsAssignable(o.status)
    ensures r == [] <==> forall k :: 0 <= k < |snaps| ==> IsAssignable(snaps[k].status)
  {
    Filter(snaps, (o: Order) => !IsAssignable(o.status))
  }

  /** Every order whose edge to `next` is illegal, as (id, current, next),
      in batch order; the list names all of them, not just the first. */
  function IllegalEdges(snaps: seq<Order>, next: Status): (r: seq<(OrderId, Status, Status)>)
    ensures r == [] <==> forall k :: 0 <= k < |snaps| ==> IsLegalTransition(snaps[k].status, next)
    ensures forall k :: 0 <= k < |snaps| ==>
              ((snaps[k].id, snaps[k].status, next) in r <==> !IsLegalTransition(snaps[k].status, next))
    ensures forall e :: e in r ==> e.2 == next && !IsLegalTransition(e.1, next)
  {
    if snaps == [] then []
    else
      var init := snaps[..|snaps| - 1];
      var o := snaps[|snaps| - 1];
      var rest := IllegalEdges(init, next);
      assert forall k :: 0 <= k < |init| ==> init[k] == snaps[k];
      if IsLegalTransition(o.status, next) then rest else rest + [(o.id, o.status, next)]
  }

  // ---------- 4) validation ----------

  /** The checks made before any order is loaded (source lines 254-262). */
  function PreLoadCheck(ids: seq<OrderId>, a: UpdateArgs): Option<WorkflowError>
  {
    if |ids| == 0 then Some(EmptyOrderIds)
    else if !RoleAllowed(a.actor.role, a.action) then Some(RoleCannotPerform(a.actor.role, a.action))
    else if RequiresReason(a.action) && !Truthy(a.reasonCode) then Some(ReasonRequired(a.action))
    else None
  }

  /** The checks on the loaded rows: final orders, driver ownership,
      warehouse scope (source lines 279-310). */
  function ScopeCheck(snaps: seq<Order>, actor: Actor): Option<WorkflowError>
  {
    if FinalOnes(snaps) != [] then Some(FinalOrders(IdsWithStatus(FinalOnes(snaps))))
    else if actor.role == Driver && NotAssignedTo(snaps, actor.id) != [] then
      Some(DriverNotAssigned(IdsOf(NotAssignedTo(snaps, actor.id))))
    else if actor.role == Warehouse && Truthy(actor.warehouseId)
            && OutsideWarehouseOnes(snaps, actor.warehouseId) != [] then
      Some(NotInWarehouse(IdsOf(OutsideWarehouseOnes(snaps, actor.warehouseId))))
    else None
  }

  /** The warehouse written on the tracking rows (source lines 343-348). */
  function TrackingWarehouse(a: UpdateArgs, effective: Option<WarehouseId>): Option<WarehouseId>
  {
    if a.warehouseId.Some? then a.warehouseId
    else if IsWarehouseAction(a.action) || a.actor.role == Warehouse then effective
    else None
  }

  /** The whole decision of `updateOrderStatusMany`, in the source's order
      of checks: the approved plan, or the first rule that rejects. */
  function Validate(orders: map<OrderId, Order>, ids: seq<OrderId>, a: UpdateArgs): (r: Result<Plan, WorkflowError>)
    // the gates that run before any order is read decide alone
    ensures |ids| == 0 ==> r == Err(EmptyOrderIds)
    ensures r == Err(EmptyOrderIds) ==> |ids| == 0
    ensures |ids| > 0 && !RoleAllowed(a.actor.role, a.action) ==> r == Err(RoleCannotPerform(a.actor.role, a.action))
    ensures |ids| > 0 && a.actor.role == Customer ==> r == Err(RoleCannotPerform(Customer, a.action))
    ensures |ids| > 0 && RoleAllowed(a.actor.role, a.action) && RequiresReason(a.action) && !Truthy(a.reasonCode) ==>
              r == Err(ReasonRequired(a.action))
    // a 404 lists exactly the ids that resolve to no order
    ensures r.Err? && r.error.OrdersNotFound? ==>
              forall id :: id in r.error.missing <==> id in ids && id !in orders
    // DRIVER_ASSIGNED never passes here, even for a manager
    ensures a.action == DriverAssigned ==> r.Err?
    // an approved plan carries the action's status and a warehouse when one is needed
    ensures r.Ok? ==> r.value.next == StatusFromAction(a.action)
    ensures r.Ok? ==> r.value.effectiveWarehouseId == Coalesce(a.warehouseId, a.actor.warehouseId)
    ensures r.Ok? ==> r.value.trackingWarehouseId == TrackingWarehouse(a, r.value.effectiveWarehouseId)
    ensures r.Ok? && IsWarehouseAction(a.action) ==> Truthy(r.value.effectiveWarehouseId)
  {
    var gate := PreLoadCheck(ids, a);
    if gate.Some? then Err(gate.value)
    else if |Found(ids, orders)| != |ids| then Err(OrdersNotFound(MissingIds(ids, orders)))
    else
      FoundCount(ids, orders);
      CheckLoaded(Snapshots(ids, orders), a)
  }

  /** The checks on the loaded rows, once every id has resolved: scope,
      the assignment redirect, the transition graph and the warehouse. */
  function CheckLoaded(snaps: seq<Order>, a: UpdateArgs): (r: Result<Plan, WorkflowError>)
    ensures a.action == DriverAssigned ==> r.Err?
    ensures r.Ok? ==> r.value.next == StatusFromAction(a.action)
    ensures r.Ok? ==> r.value.effectiveWarehouseId == Coalesce(a.warehouseId, a.actor.warehouseId)
    ensures r.Ok? ==> r.value.trackingWarehouseId == TrackingWarehouse(a, r.value.effectiveWarehouseId)
    ensures r.Ok? && IsWarehouseAction(a.action) ==> Truthy(r.value.effectiveWarehouseId)
    ensures r.Err? ==> !r.error.OrdersNotFound? && !r.error.EmptyOrderIds?
  {
    var scope := ScopeCheck(snaps, a.actor);
    if scope.Some? then Err(scope.value)
    else if a.action == DriverAssigned then Err(UseAssignWorkflow)
    else
      var next := StatusFromAction(a.action);
      if next.Some? && IllegalEdges(snaps, next.value) != [] then
        Err(IllegalTransitions(IllegalEdges(snaps, next.value)))
      else
        var effective := Coalesce(a.warehouseId, a.actor.warehouseId);
        if IsWarehouseAction(a.action) && !Truthy(effective) then Err(WarehouseRequired(a.action))
        else Ok(Plan(next, effective, TrackingWarehouse(a, effective)))
  }

  /** What one order must satisfy for the batch to pass. */
  predicate OrderAdmissible(o: Order, a: UpdateArgs)
  {
    && !IsFinal(o.status)
    && (a.actor.role == Driver ==> o.assignedDriverId == Some(a.actor.id))
    && (a.actor.role == Warehouse && Truthy(a.actor.warehouseId) ==> !OutsideWarehouse(o, a.actor.warehouseId))
    && (StatusFromAction(a.action).Some? ==> IsLegalTransition(o.status, StatusFromAction(a.action).value))
  }

  /** Declarative statement of when an update batch is accepted. */
  ghost predicate Admissible(orders: map<OrderId, Order>, ids: seq<OrderId>, a: UpdateArgs)
  {
    && |ids| > 0
    && RoleAllowed(a.actor.role, a.action)
    && (RequiresReason(a.action) ==> Truthy(a.reasonCode))
    && Distinct(ids)
    && (forall k :: 0 <= k < |ids| ==> ids[k] in orders && OrderAdmissible(orders[ids[k]], a))
    && a.action != DriverAssigned
    && (IsWarehouseAction(a.action) ==> Truthy(Coalesce(a.warehouseId, a.actor.warehouseId)))
  }

  /** Validate approves a batch exactly when it is admissible, and the plan
      it approves carries the action's status and the coalesced warehouse. */
  lemma ValidateOkIff(orders: map<OrderId, Order>, ids: seq<OrderId>, a: UpdateArgs)
    ensures Validate(orders, ids, a).Ok? <==> Admissible(orders, ids, a)
    ensures Validate(orders, ids, a).Ok? ==>
      Validate(orders, ids, a).value.next == StatusFromAction(a.action)
      && Validate(orders, ids, a).value.effectiveWarehouseId == Coalesce(a.warehouseId, a.actor.warehouseId)
  {
    FoundCount(ids, orders);
    if PreLoadCheck(ids, a).None? && |Found(ids, orders)| == |ids| {
      var snaps := Snapshots(ids, orders);
      ScopeCheckNoneIff(snaps, a.actor);
      assert forall k :: 0 <= k < |ids| ==> snaps[k] == orders[ids[k]];
    }
  }

  /** The scope checks pass exactly when no loaded order is final, a
      driver holds every order, and a warehouse user's orders are all in
      no warehouse or its own. */
  lemma ScopeCheckNoneIff(snaps: seq<Order>, actor: Actor)
    ensures ScopeCheck(snaps, actor).None? <==>
              forall k :: 0 <= k < |snaps| ==>
                && !IsFinal(snaps[k].status)
                && (actor.role == Driver ==> snaps[k].assignedDriverId == Some(actor.id))
                && (actor.role == Warehouse && Truthy(actor.warehouseId) ==> !OutsideWarehouse(snaps[k], actor.warehouseId))
  {
  }

  /** Every requested id that resolves to no order makes the batch fail with
      404, and the error names all of those ids, whatever else the batch holds. */
  lemma MissingOrdersReported(orders: map<OrderId, Order>, ids: seq<OrderId>, a: UpdateArgs, k: nat)
    requires PreLoadCheck(ids, a).None?
    requires k < |ids| && ids[k] !in orders
    ensures Validate(orders, ids, a) == Err(OrdersNotFound(MissingIds(ids, orders)))
    ensures ids[k] in MissingIds(ids, orders)
  {
    assert |Found(ids, orders)| != |ids| by {
      FoundCount(ids, orders);
      assert ids[k] !in orders;
    }
  }

  /** As written, a batch that names an existing order twice fails with 404
      and an empty list of missing ids: the row count is compared with the
      length of the id list. */
  lemma DuplicateIdsRejected(orders: map<OrderId, Order>, ids: seq<OrderId>, a: UpdateArgs)
    requires PreLoadCheck(ids, a).None?
    requires forall k :: 0 <= k < |ids| ==> ids[k] in orders
    requires !Distinct(ids)
    ensures Validate(orders, ids, a) == Err(OrdersNotFound([]))
  {
    FoundCount(ids, orders);
  }

  /** One order in a final status blocks the whole batch, and the error names
      exactly the final orders of the batch with their statuses. */
  lemma FinalOrdersReported(orders: map<OrderId, Order>, ids: seq<OrderId>, a: UpdateArgs, k: nat)
    requires PreLoadCheck(ids, a).None?
    requires Distinct(ids) && forall j :: 0 <= j < |ids| ==> ids[j] in orders && orders[ids[j]].id == ids[j]
    requires k < |ids| && IsFinal(orders[ids[k]].status)
    ensures Validate(orders, ids, a).Err? && Validate(orders, ids, a).error.FinalOrders?
    ensures forall j :: 0 <= j < |ids| ==>
              ((ids[j], orders[ids[j]].status) in Validate(orders, ids, a).error.orders
               <==> IsFinal(orders[ids[j]].status))
    ensures forall p :: p in Validate(orders, ids, a).error.orders ==> p.0 in ids && IsFinal(p.1)
  {
    FoundCount(ids, orders);
    var snaps := Snapshots(ids, orders);
    var listed := IdsWithStatus(FinalOnes(snaps));
    assert Validate(orders, ids, a) == Err(FinalOrders(listed)) by {
      FinalRowRejected(snaps, a, k);
    }
    FinalListingIds(orders, ids);
  }

  /** The final-order listing of a fully loaded batch, stated over the ids. */
  lemma FinalListingIds(orders: map<OrderId, Order>, ids: seq<OrderId>)
    requires forall j :: 0 <= j < |ids| ==> ids[j] in orders && orders[ids[j]].id == ids[j]
    ensures forall j :: 0 <= j < |ids| ==>
              ((ids[j], orders[ids[j]].status) in IdsWithStatus(FinalOnes(Snapshots(ids, orders)))
               <==> IsFinal(orders[ids[j]].status))
    ensures forall p :: p in IdsWithStatus(FinalOnes(Snapshots(ids, orders))) ==> p.0 in ids && IsFinal(p.1)
  {
    var snaps := Snapshots(ids, orders);
    FinalListing(snaps);
    forall p | p in IdsWithStatus(FinalOnes(snaps)) ensures p.0 in ids {
      var j :| 0 <= j < |snaps| && snaps[j].id == p.0;
      assert p.0 == ids[j];
    }
  }

  /** A loaded final row makes the checks on loaded rows answer with the
      listing of every final row. */
  lemma FinalRowRejected(snaps: seq<Order>, a: UpdateArgs, k: nat)
    requires k < |snaps| && IsFinal(snaps[k].status)
    ensures CheckLoaded(snaps, a) == Err(FinalOrders(IdsWithStatus(FinalOnes(snaps))))
  {
    assert snaps[k] in FinalOnes(snaps);
  }

  /** The final-order listing names exactly the final snapshots. */
  lemma FinalListing(snaps: seq<Order>)
    ensures forall j :: 0 <= j < |snaps| ==>
              ((snaps[j].id, snaps[j].status) in IdsWithStatus(FinalOnes(snaps)) <==> IsFinal(snaps[j].status))
    ensures forall p :: p in IdsWithStatus(FinalOnes(snaps)) ==>
              IsFinal(p.1) && exists j :: 0 <= j < |snaps| && snaps[j].id == p.0
  {
    var finals := FinalOnes(snaps);
    var listed := IdsWithStatus(finals);
    forall j | 0 <= j < |snaps| && IsFinal(snaps[j].status)
      ensures (snaps[j].id, snaps[j].status) in listed
    {
      assert snaps[j] in finals;
      var i :| 0 <= i < |finals| && finals[i] == snaps[j];
      assert listed[i] == (snaps[j].id, snaps[j].status);
    }
    forall p | p in listed
      ensures IsFinal(p.1) && exists j :: 0 <= j < |snaps| && snaps[j].id == p.0
    {
      var i :| 0 <= i < |listed| && listed[i] == p;
      assert finals[i] in snaps;
      var j :| 0 <= j < |snaps| && snaps[j] == finals[i];
      assert snaps[j].id == p.0;
    }
  }

  /** An approved batch never touches an order in a final status. */
  lemma FinalOrdersFrozen(orders: map<OrderId, Order>, ids: seq<OrderId>, a: UpdateArgs, now: Timestamp)
    requires Validate(orders, ids, a).Ok?
    ensures forall id | id in orders && IsFinal(orders[id].status) ::
              CommitOrders(orders, ids, a, Validate(orders, ids, a).value, now)[id] == orders[id]
  {
    ValidateOkIff(orders, ids, a);
  }

  /** A driver's batch passes only when the driver is assigned to every order. */
  lemma DriverScope(orders: map<OrderId, Order>, ids: seq<OrderId>, a: UpdateArgs)
    requires a.actor.role == Driver
    requires Validate(orders, ids, a).Ok?
    ensures forall k :: 0 <= k < |ids| ==> ids[k] in orders && orders[ids[k]].assignedDriverId == Some(a.actor.id)
  {
    ValidateOkIff(orders, ids, a);
  }

  /** A warehouse user with a warehouse passes only for orders that are either
      not placed in any warehouse or placed in the user's own. */
  lemma WarehouseScope(orders: map<OrderId, Order>, ids: seq<OrderId>, a: UpdateArgs)
    requires a.actor.role == Warehouse && Truthy(a.actor.warehouseId)
    requires Validate(orders, ids, a).Ok?
    ensures forall k :: 0 <= k < |ids| ==>
              (ids[k] in orders &&
               (!Truthy(orders[ids[k]].currentWarehouseId) || orders[ids[k]].currentWarehouseId == a.actor.warehouseId))
  {
    ValidateOkIff(orders, ids, a);
  }

  /** A driver's batch that clears the earlier checks but names an order the
      driver does not hold is refused with 403, and the refusal lists
      exactly the requested orders held by someone else (or by nobody). */
  lemma DriverNotAssignedReported(orders: map<OrderId, Order>, ids: seq<OrderId>, a: UpdateArgs, k: nat)
    requires PreLoadCheck(ids, a).None? && a.actor.role == Driver
    requires Distinct(ids) && forall j :: 0 <= j < |ids| ==> ids[j] in orders && orders[ids[j]].id == ids[j]
    requires forall j :: 0 <= j < |ids| ==> !IsFinal(orders[ids[j]].status)
    requires k < |ids| && orders[ids[k]].assignedDriverId != Some(a.actor.id)
    ensures Validate(orders, ids, a).Err? && Validate(orders, ids, a).error.DriverNotAssigned?
    ensures HttpStatus(Validate(orders, ids, a).error) == 403
    ensures forall j :: 0 <= j < |ids| ==>
              (ids[j] in Validate(orders, ids, a).error.orderIds <==> orders[ids[j]].assignedDriverId != Some(a.actor.id))
    ensures forall id :: id in Validate(orders, ids, a).error.orderIds ==> id in ids
  {
    DriverBatchRejected(orders, ids, a, k);
    NotAssignedListingIds(orders, ids, a.actor.id);
    ScopeRefusalStatus(Validate(orders, ids, a).error);
  }

  /** The scope refusals are the 403 answers. */
  lemma ScopeRefusalStatus(e: WorkflowError)
    requires e.DriverNotAssigned? || e.NotInWarehouse?
    ensures HttpStatus(e) == 403
  {
  }

  /** The decision on such a batch is the driver listing of its loaded rows. */
  lemma DriverBatchRejected(orders: map<OrderId, Order>, ids: seq<OrderId>, a: UpdateArgs, k: nat)
    requires PreLoadCheck(ids, a).None? && a.actor.role == Driver
    requires Distinct(ids) && forall j :: 0 <= j < |ids| ==> ids[j] in orders
    requires forall j :: 0 <= j < |ids| ==> !IsFinal(orders[ids[j]].status)
    requires k < |ids| && orders[ids[k]].assignedDriverId != Some(a.actor.id)
    ensures Validate(orders, ids, a) == Err(DriverNotAssigned(IdsOf(NotAssignedTo(Snapshots(ids, orders), a.actor.id))))
  {
    FoundCount(ids, orders);
    DriverRowRejected(Snapshots(ids, orders), a, k);
  }

  /** A loaded row the driver does not hold, with no final row, makes the
      loaded-row checks answer with the listing of every such row. */
  lemma DriverRowRejected(snaps: seq<Order>, a: UpdateArgs, k: nat)
    requires a.actor.role == Driver
    requires forall j :: 0 <= j < |snaps| ==> !IsFinal(snaps[j].status)
    requires k < |snaps| && snaps[k].assignedDriverId != Some(a.actor.id)
    ensures CheckLoaded(snaps, a) == Err(DriverNotAssigned(IdsOf(NotAssignedTo(snaps, a.actor.id))))
  {
    assert snaps[k] in NotAssignedTo(snaps, a.actor.id);
  }

  /** The ids of any sub-listing of a loaded batch: a requested id is listed
      exactly when its order is, and only requested ids are listed. */
  lemma ListedIds(orders: map<OrderId, Order>, ids: seq<OrderId>, held: seq<Order>)
    requires forall j :: 0 <= j < |ids| ==> ids[j] in orders && orders[ids[j]].id == ids[j]
    requires forall o :: o in held ==> o in Snapshots(ids, orders)
    ensures forall j :: 0 <= j < |ids| ==> (ids[j] in IdsOf(held) <==> orders[ids[j]] in held)
    ensures forall id :: id in IdsOf(held) ==> id in ids
  {
    var snaps := Snapshots(ids, orders);
    var listed := IdsOf(held);
    forall j | 0 <= j < |ids| ensures ids[j] in listed <==> orders[ids[j]] in held {
      if orders[ids[j]] in held {
        var i :| 0 <= i < |held| && held[i] == orders[ids[j]];
        assert listed[i] == ids[j];
      }
      if ids[j] in listed {
        var i :| 0 <= i < |listed| && listed[i] == ids[j];
        assert held[i] in snaps;
        var m :| 0 <= m < |snaps| && snaps[m] == held[i];
        assert ids[m] == ids[j];
      }
    }
    forall id | id in listed ensures id in ids {
      var i :| 0 <= i < |listed| && listed[i] == id;
      assert held[i] in snaps;
      var m :| 0 <= m < |snaps| && snaps[m] == held[i];
      assert ids[m] == id;
    }
  }

  /** The driver listing of a loaded batch, stated over the ids. */
  lemma NotAssignedListingIds(orders: map<OrderId, Order>, ids: seq<OrderId>, d: UserId)
    requires forall j :: 0 <= j < |ids| ==> ids[j] in orders && orders[ids[j]].id == ids[j]
    ensures forall j :: 0 <= j < |ids| ==>
              (ids[j] in IdsOf(NotAssignedTo(Snapshots(ids, orders), d)) <==> orders[ids[j]].assignedDriverId != Some(d))
    ensures forall id :: id in IdsOf(NotAssignedTo(Snapshots(ids, orders), d)) ==> id in ids
  {
    var snaps := Snapshots(ids, orders);
    ListedIds(orders, ids, NotAssignedTo(snaps, d));
    forall j | 0 <= j < |ids| ensures orders[ids[j]] in snaps {
      assert snaps[j] == orders[ids[j]];
    }
  }

  /** A warehouse user's batch (with a warehouse) that clears the earlier
      checks but names an order placed in another warehouse is refused with
      403, and the refusal lists exactly the requested orders placed
      elsewhere. */
  lemma OutsideWarehouseReported(orders: map<OrderId, Order>, ids: seq<OrderId>, a: UpdateArgs, k: nat)
    requires PreLoadCheck(ids, a).None? && a.actor.role == Warehouse && Truthy(a.actor.warehouseId)
    requires Distinct(ids) && forall j :: 0 <= j < |ids| ==> ids[j] in orders && orders[ids[j]].id == ids[j]
    requires forall j :: 0 <= j < |ids| ==> !IsFinal(orders[ids[j]].status)
    requires k < |ids| && OutsideWarehouse(orders[ids[k]], a.actor.warehouseId)
    ensures Validate(orders, ids, a).Err? && Validate(orders, ids, a).error.NotInWarehouse?
    ensures HttpStatus(Validate(orders, ids, a).error) == 403
    ensures forall j :: 0 <= j < |ids| ==>
              (ids[j] in Validate(orders, ids, a).error.orderIds <==> OutsideWarehouse(orders[ids[j]], a.actor.warehouseId))
    ensures forall id :: id in Validate(orders, ids, a).error.orderIds ==> id in ids
  {
    WarehouseBatchRejected(orders, ids, a, k);
    OutsideListingIds(orders, ids, a.actor.warehouseId);
    ScopeRefusalStatus(Validate(orders, ids, a).error);
  }

  /** The decision on such a batch is the warehouse listing of its loaded rows. */
  lemma WarehouseBatchRejected(orders: map<OrderId, Order>, ids: seq<OrderId>, a: UpdateArgs, k: nat)
    requires PreLoadCheck(ids, a).None? && a.actor.role == Warehouse && Truthy(a.actor.warehouseId)
    requires Distinct(ids) && forall j :: 0 <= j < |ids| ==> ids[j] in orders
    requires forall j :: 0 <= j < |ids| ==> !IsFinal(orders[ids[j]].status)
    requires k < |ids| && OutsideWarehouse(orders[ids[k]], a.actor.warehouseId)
    ensures Validate(orders, ids, a) == Err(NotInWarehouse(IdsOf(OutsideWarehouseOnes(Snapshots(ids, orders), a.actor.warehouseId))))
  {
    FoundCount(ids, orders);
    WarehouseRowRejected(Snapshots(ids, orders), a, k);
  }

  /** A loaded row in another warehouse, with no final row, makes the
      loaded-row checks of a warehouse user answer with the listing of every
      such row. */
  lemma WarehouseRowRejected(snaps: seq<Order>, a: UpdateArgs, k: nat)
    requires a.actor.role == Warehouse && Truthy(a.actor.warehouseId)
    requires forall j :: 0 <= j < |snaps| ==> !IsFinal(snaps[j].status)
    requires k < |snaps| && OutsideWarehouse(snaps[k], a.actor.warehouseId)
    ensures CheckLoaded(snaps, a) == Err(NotInWarehouse(IdsOf(OutsideWarehouseOnes(snaps, a.actor.warehouseId))))
  {
    assert snaps[k] in OutsideWarehouseOnes(snaps, a.actor.warehouseId);
  }

  /** The warehouse listing of a loaded batch, stated over the ids. */
  lemma OutsideListingIds(orders: map<OrderId, Order>, ids: seq<OrderId>, wh: Option<WarehouseId>)
    requires forall j :: 0 <= j < |ids| ==> ids[j] in orders && orders[ids[j]].id == ids[j]
    ensures forall j :: 0 <= j < |ids| ==>
              (ids[j] in IdsOf(OutsideWarehouseOnes(Snapshots(ids, orders), wh)) <==> OutsideWarehouse(orders[ids[j]], wh))
    ensures forall id :: id in IdsOf(OutsideWarehouseOnes(Snapshots(ids, orders), wh)) ==> id in ids
  {
    var snaps := Snapshots(ids, orders);
    ListedIds(orders, ids, OutsideWarehouseOnes(snaps, wh));
    forall j | 0 <= j < |ids| ensures orders[ids[j]] in snaps {
      assert snaps[j] == orders[ids[j]];
    }
  }

  /** Actions without a resulting status (attempts, SORTED, DRIVER_REJECTED)
      never meet the transition check: such a batch passes exactly when its
      gates and scope checks pass, whatever the current statuses. */
  lemma InformationalActionsSkipGraph(orders: map<OrderId, Order>, ids: seq<OrderId>, a: UpdateArgs)
    requires StatusFromAction(a.action).None?
    ensures Validate(orders, ids, a).Ok? <==>
      && |ids| > 0 && RoleAllowed(a.actor.role, a.action)
      && (RequiresReason(a.action) ==> Truthy(a.reasonCode))
      && Distinct(ids)
      && (forall k :: 0 <= k < |ids| ==>
            (ids[k] in orders
             && !IsFinal(orders[ids[k]].status)
             && (a.actor.role == Driver ==> orders[ids[k]].assignedDriverId == Some(a.actor.id))
             && (a.actor.role == Warehouse && Truthy(a.actor.warehouseId) ==>
                   !OutsideWarehouse(orders[ids[k]], a.actor.warehouseId))))
      && (IsWarehouseAction(a.action) ==> Truthy(Coalesce(a.warehouseId, a.actor.warehouseId)))
  {
    ValidateOkIff(orders, ids, a);
  }

  /** Once the earlier checks pass, every order with an illegal edge is named
      in one error; the check does not stop at the first. */
  lemma IllegalEdgesReported(orders: map<OrderId, Order>, ids: seq<OrderId>, a: UpdateArgs, k: nat)
    requires PreLoadCheck(ids, a).None?
    requires Distinct(ids) && forall j :: 0 <= j < |ids| ==> ids[j] in orders && orders[ids[j]].id == ids[j]
    requires ScopeCheck(Snapshots(ids, orders), a.actor).None?
    requires a.action != DriverAssigned && StatusFromAction(a.action).Some?
    requires k < |ids| && !IsLegalTransition(orders[ids[k]].status, StatusFromAction(a.action).value)
    ensures Validate(orders, ids, a).Err? && Validate(orders, ids, a).error.IllegalTransitions?
    ensures forall j :: 0 <= j < |ids| ==>
              ((ids[j], orders[ids[j]].status, StatusFromAction(a.action).value) in Validate(orders, ids, a).error.edges
               <==> !IsLegalTransition(orders[ids[j]].status, StatusFromAction(a.action).value))
  {
    FoundCount(ids, orders);
  }

  // ---------- the commit ----------

  /** The order row after an approved update (source lines 350-375). */
  function Updated(o: Order, a: UpdateArgs, plan: Plan, now: Timestamp): Order
  {
    o.(status := if plan.next.Some? then plan.next.value else o.status,
       currentWarehouseId :=
         if a.action == ArrivedAtWarehouse then plan.effectiveWarehouseId else o.currentWarehouseId,
       pickupAttemptCount :=
         if a.action == PickupAttempt then o.pickupAttemptCount + 1 else o.pickupAttemptCount,
       deliveryAttemptCount :=
         if a.action == DeliveryAttempt then o.deliveryAttemptCount + 1 else o.deliveryAttemptCount,
       lastExceptionReason := if IsExceptionAction(a.action) then a.reasonCode else o.lastExceptionReason,
       lastExceptionAt := if IsExceptionAction(a.action) then Some(now) else o.lastExceptionAt)
  }

  /** All order rows after the batch: exactly the requested ones change. */
  function CommitOrders(orders: map<OrderId, Order>, ids: seq<OrderId>, a: UpdateArgs, plan: Plan, now: Timestamp)
    : (r: map<OrderId, Order>)
    ensures r.Keys == orders.Keys && forall id | id in r :: r[id].id == orders[id].id
  {
    map id | id in orders :: if id in ids then Updated(orders[id], a, plan, now) else orders[id]
  }

  /** The tracking row written for one order of an approved batch. */
  function WorkflowEvent(id: OrderId, a: UpdateArgs, plan: Plan): TrackingEvent
  {
    TrackingEvent(id, Some(a.action), None, plan.next, a.reasonCode, a.note, a.region,
                  plan.trackingWarehouseId, Some(a.actor.id), Some(a.actor.role), a.parcelId)
  }

  /** One tracking row per requested id, in request order. */
  function BatchEvents(ids: seq<OrderId>, a: UpdateArgs, plan: Plan): (r: seq<TrackingEvent>)
    ensures |r| == |ids| && forall k :: 0 <= k < |ids| ==> r[k] == WorkflowEvent(ids[k], a, plan)
  {
    seq(|ids|, k requires 0 <= k < |ids| => WorkflowEvent(ids[k], a, plan))
  }

  /** The commit keeps every order's status equal to its latest logged status. */
  lemma CommitKeepsProjection(orders: map<OrderId, Order>, events: seq<TrackingEvent>,
                              ids: seq<OrderId>, a: UpdateArgs, plan: Plan, now: Timestamp)
    requires StatusMatchesLog(orders, events)
    ensures StatusMatchesLog(CommitOrders(orders, ids, a, plan, now), events + BatchEvents(ids, a, plan))
  {
    var more := BatchEvents(ids, a, plan);
    var after := CommitOrders(orders, ids, a, plan, now);
    forall id | id in after
      ensures LastStatus(events + more, id) == Some(after[id].status)
    {
      LastStatusAppend(events, more, id);
      LastStatusUniform(more, id, plan.next);
      if id in ids {
        var k :| 0 <= k < |ids| && ids[k] == id;
        assert more[k].orderId == id;
      } else {
        assert forall k :: 0 <= k < |more| ==> more[k].orderId != id;
      }
    }
  }

  /** The commit changes only the requested orders, keeps every row's id, and
      changes nothing on an order but the six fields the update data names. */
  lemma CommitFrame(orders: map<OrderId, Order>, ids: seq<OrderId>, a: UpdateArgs, plan: Plan, now: Timestamp)
    ensures CommitOrders(orders, ids, a, plan, now).Keys == orders.Keys
    ensures forall id | id in orders && id !in ids :: CommitOrders(orders, ids, a, plan, now)[id] == orders[id]
    ensures forall id | id in orders && id in ids ::
              var o, u := orders[id], CommitOrders(orders, ids, a, plan, now)[id];
              && u.(status := o.status, currentWarehouseId := o.currentWarehouseId,
                    pickupAttemptCount := o.pickupAttemptCount, deliveryAttemptCount := o.deliveryAttemptCount,
                    lastExceptionReason := o.lastExceptionReason, lastExceptionAt := o.lastExceptionAt) == o
              && (u.status != o.status ==> plan.next == Some(u.status))
              && u.pickupAttemptCount - o.pickupAttemptCount == (if a.action == PickupAttempt then 1 else 0)
              && u.deliveryAttemptCount - o.deliveryAttemptCount == (if a.action == DeliveryAttempt then 1 else 0)
  {
  }

  /** Prisma's `updateMany` data object, built field by field. */
  datatype UpdateData = UpdateData(
    status: Option<Status>,
    currentWarehouseId: Option<Option<WarehouseId>>,
    pickupIncrement: nat,
    deliveryIncrement: nat,
    exception: Option<(Option<ReasonCode>, Timestamp)>)

  /** How `updateMany` applies a data object to one row. */
  function ApplyData(o: Order, d: UpdateData): Order
  {
    o.(status := if d.status.Some? then d.status.value else o.status,
       currentWarehouseId := if d.currentWarehouseId.Some? then d.currentWarehouseId.value else o.currentWarehouseId,
       pickupAttemptCount := o.pickupAttemptCount + d.pickupIncrement,
       deliveryAttemptCount := o.deliveryAttemptCount + d.deliveryIncrement,
       lastExceptionReason := if d.exception.Some? then d.exception.value.0 else o.lastExceptionReason,
       lastExceptionAt := if d.exception.Some? then Some(d.exception.value.1) else o.lastExceptionAt)
  }

  /** How `updateMany` applies one data object to the rows whose id is listed. */
  function ApplyMany(orders: map<OrderId, Order>, ids: seq<OrderId>, d: UpdateData): map<OrderId, Order>
  {
    map id | id in orders :: if id in ids then ApplyData(orders[id], d) else orders[id]
  }

  /** Applying a data object that updates every row as specified is the
      specified commit. */
  lemma ApplyManyIsCommit(orders: map<OrderId, Order>, ids: seq<OrderId>, d: UpdateData,
                          a: UpdateArgs, plan: Plan, now: Timestamp)
    requires forall o :: ApplyData(o, d) == Updated(o, a, plan, now)
    ensures ApplyMany(orders, ids, d) == CommitOrders(orders, ids, a, plan, now)
  {
  }

  /** Builds the `updateMany` data object key by key; applying it to any row
      gives exactly the specified updated row. */
  method BuildUpdateData(a: UpdateArgs, plan: Plan, now: Timestamp) returns (data: UpdateData)
    ensures forall o :: ApplyData(o, data) == Updated(o, a, plan, now)
  {
    data := UpdateData(None, None, 0, 0, None);
    if plan.next.Some? {
      data := data.(status := plan.next);
    }
    if a.action == ArrivedAtWarehouse {
      data := data.(currentWarehouseId := Some(plan.effectiveWarehouseId));
    }
    if a.action == PickupAttempt {
      data := data.(pickupIncrement := 1);
    }
    if a.action == DeliveryAttempt {
      data := data.(deliveryIncrement := 1);
    }
    var isExceptionAction := a.action == PickupFailed || a.action == DeliveryFailed
      || a.action == OnHold || a.action == Action.Cancelled || a.action == ReturnRequested;
    if isExceptionAction {
      data := data.(exception := Some((a.reasonCode, now)));
    }
  }

  /** The transaction of an approved batch: one `updateMany` over the ids and
      one `createMany` of tracking rows; returns the updated rows in request
      order. */
  method CommitBatch(db: Database, ids: seq<OrderId>, a: UpdateArgs, plan: Plan, now: Timestamp)
    returns (r: Result<seq<Order>, WorkflowError>)
    requires db.Valid()
    requires forall k :: 0 <= k < |ids| ==> ids[k] in db.orders
    modifies db
    ensures db.Valid()
    ensures db.users == old(db.users) && db.addresses == old(db.addresses) && db.orderCounter == old(db.orderCounter)
    ensures db.orders == CommitOrders(old(db.orders), ids, a, plan, now)
    ensures db.events == old(db.events) + BatchEvents(ids, a, plan)
    ensures r.Ok? && |r.value| == |ids|
    ensures forall k :: 0 <= k < |ids| ==> ids[k] in db.orders && r.value[k] == db.orders[ids[k]]
  {
    var data := BuildUpdateData(a, plan, now);
    CommitKeepsProjection(db.orders, db.events, ids, a, plan, now);
    ApplyManyIsCommit(db.orders, ids, data, a, plan, now);
    var after := ApplyMany(db.orders, ids, data);
    db.orders := after;
    db.events := db.events + BatchEvents(ids, a, plan);
    r := Ok(Snapshots(ids, after));
  }

  /** The loop that walks the loaded rows and collects every edge the
      graph does not allow, in request order. */
  method CollectIllegalEdges(snaps: seq<Order>, next: Status) returns (invalid: seq<(OrderId, Status, Status)>)
    ensures invalid == IllegalEdges(snaps, next)
  {
    invalid := [];
    var i := 0;
    while i < |snaps|
      invariant 0 <= i <= |snaps|
      invariant invalid == IllegalEdges(snaps[..i], next)
    {
      var o := snaps[i];
      assert snaps[..i + 1][..i] == snaps[..i];
      if !IsLegalTransition(o.status, next) {
        invalid := invalid + [(o.id, o.status, next)];
      }
      i := i + 1;
    }
    assert snaps[..i] == snaps;
  }

  /** The checks of `updateOrderStatusMany` as the source runs them, with the
      transition check as a loop that collects every illegal edge; the
      outcome is exactly the spec `Validate`. */
  method CheckBatch(orders: map<OrderId, Order>, ids: seq<OrderId>, a: UpdateArgs)
    returns (r: Result<Plan, WorkflowError>)
    ensures r == Validate(orders, ids, a)
  {
    var gate := PreLoadCheck(ids, a);
    if gate.Some? {
      return Err(gate.value);
    }
    if |Found(ids, orders)| != |ids| {
      return Err(OrdersNotFound(MissingIds(ids, orders)));
    }
    FoundCount(ids, orders);
    var snaps := Snapshots(ids, orders);
    assert Validate(orders, ids, a) == CheckLoaded(snaps, a);
    var scope := ScopeCheck(snaps, a.actor);
    if scope.Some? {
      return Err(scope.value);
    }
    var next := StatusFromAction(a.action);
    if a.action == DriverAssigned {
      return Err(UseAssignWorkflow);
    }
    if next.Some? {
      var invalid := CollectIllegalEdges(snaps, next.value);
      if invalid != [] {
        return Err(IllegalTransitions(invalid));
      }
    }
    var effective := Coalesce(a.warehouseId, a.actor.warehouseId);
    if IsWarehouseAction(a.action) && !Truthy(effective) {
      return Err(WarehouseRequired(a.action));
    }
    r := Ok(Plan(next, effective, TrackingWarehouse(a, effective)));
  }

  /** `updateOrderStatusMany`: either the first failing rule's error with
      orders and log unchanged, or exactly the requested orders updated and
      one tracking row appended per id. Returns the updated rows. */
  method UpdateOrderStatusMany(db: Database, ids: seq<OrderId>, a: UpdateArgs, now: Timestamp)
    returns (r: Result<seq<Order>, WorkflowError>)
    requires db.Valid()
    modifies db
    ensures db.Valid()
    ensures db.users == old(db.users) && db.addresses == old(db.addresses) && db.orderCounter == old(db.orderCounter)
    ensures match Validate(old(db.orders), ids, a)
      case Err(e) =>
        r == Err(e) && db.orders == old(db.orders) && db.events == old(db.events)
      case Ok(plan) =>
        && db.orders == CommitOrders(old(db.orders), ids, a, plan, now)
        && db.events == old(db.events) + BatchEvents(ids, a, plan)
        && r.Ok? && |r.value| == |ids|
        && forall k :: 0 <= k < |ids| ==> ids[k] in db.orders && r.value[k] == db.orders[ids[k]]
  {
    var checked := CheckBatch(db.orders, ids, a);
    match checked
    case Err(e) =>
      r := Err(e);
    case Ok(plan) =>
      ValidateOkIff(db.orders, ids, a);
      r := CommitBatch(db, ids, a, plan, now);
  }

  /** A one-element batch changes exactly that order. */
  lemma CommitSingle(orders: map<OrderId, Order>, id: OrderId, a: UpdateArgs, plan: Plan, now: Timestamp)
    requires id in orders
    ensures CommitOrders(orders, [id], a, plan, now) == orders[id := Updated(orders[id], a, plan, now)]
  {
  }

  /** `updateOrderStatus`: the bulk form on a one-element list, returning its
      only row. */
  method UpdateOrderStatus(db: Database, orderId: OrderId, a: UpdateArgs, now: Timestamp)
    returns (r: Result<Order, WorkflowError>)
    requires db.Valid()
    modifies db
    ensures db.Valid()
    ensures db.users == old(db.users) && db.addresses == old(db.addresses) && db.orderCounter == old(db.orderCounter)
    ensures match Validate(old(db.orders), [orderId], a)
      case Err(e) =>
        r == Err(e) && db.orders == old(db.orders) && db.events == old(db.events)
      case Ok(plan) =>
        && orderId in old(db.orders)
        && db.orders == old(db.orders)[orderId := Updated(old(db.orders)[orderId], a, plan, now)]
        && db.events == old(db.events) + [WorkflowEvent(orderId, a, plan)]
        && r == Ok(db.orders[orderId])
  {
    ghost var v := Validate(db.orders, [orderId], a);
    if v.Ok? {
      ValidateOkIff(db.orders, [orderId], a);
      CommitSingle(db.orders, orderId, a, v.value, now);
    }
    var list := UpdateOrderStatusMany(db, [orderId], a, now);
    if list.Err? {
      return Err(list.error);
    }
    assert BatchEvents([orderId], a, v.value) == [WorkflowEvent(orderId, a, v.value)];
    r := Ok(list.value[0]);
  }

  // ---------- 5) assign driver workflow ----------

  /** The decision of `assignOrdersToDriver`, in the source's order of checks. */
  function ValidateAssignment(orders: map<OrderId, Order>, users: map<UserId, Role>,
                              ids: seq<OrderId>, driverId: UserId): (r: Option<WorkflowError>)
    ensures |ids| == 0 ==> r == Some(EmptyOrderIds)
    ensures |ids| > 0 && (driverId !in users || users[driverId] != Driver) ==> r == Some(DriverInvalid)
    ensures r.Some? && r.value.NotAssignable? ==>
              r.value.orders != [] && forall p :: p in r.value.orders ==> !IsAssignable(p.1)
    ensures (&& |ids| > 0 && driverId in users && users[driverId] == Driver
             && !(Distinct(ids) && forall k :: 0 <= k < |ids| ==> ids[k] in orders))
            ==> r == Some(SomeOrdersNotFound)
    ensures r.Some? && r.value.NotAssignable? ==> forall k :: 0 <= k < |ids| ==>
              ids[k] in orders
              && ((orders[ids[k]].id, orders[ids[k]].status) in r.value.orders <==> !IsAssignable(orders[ids[k]].status))
    ensures r.Some? ==> r.value.EmptyOrderIds? || r.value.DriverInvalid? || r.value.SomeOrdersNotFound? || r.value.NotAssignable?
  {
    FoundCount(ids, orders);
    if |ids| == 0 then Some(EmptyOrderIds)
    else if driverId !in users || users[driverId] != Driver then Some(DriverInvalid)
    else if |Found(ids, orders)| != |ids| then Some(SomeOrdersNotFound)
    else
      AssignableCheck(Snapshots(ids, orders))
  }

  /** Every refusal of an assignment is answered with 400, a missing order included. */
  lemma AssignmentRefusalStatus(orders: map<OrderId, Order>, users: map<UserId, Role>, ids: seq<OrderId>, driverId: UserId)
    requires ValidateAssignment(orders, users, ids, driverId).Some?
    ensures HttpStatus(ValidateAssignment(orders, users, ids, driverId).value) == 400
  {
    AssignmentErrorStatus(ValidateAssignment(orders, users, ids, driverId).value);
  }

  /** The errors an assignment can answer with all carry 400. */
  lemma AssignmentErrorStatus(e: WorkflowError)
    requires e.EmptyOrderIds? || e.DriverInvalid? || e.SomeOrdersNotFound? || e.NotAssignable?
    ensures HttpStatus(e) == 400
  {
  }

  /** The state check on the loaded rows: the listing of every row that is
      neither pending nor exception, or nothing when there is none. */
  function AssignableCheck(snaps: seq<Order>): (r: Option<WorkflowError>)
    ensures r.None? <==> forall k :: 0 <= k < |snaps| ==> IsAssignable(snaps[k].status)
    ensures r.Some? ==> r.value.NotAssignable? && r.value.orders != []
    ensures r.Some? ==> forall p :: p in r.value.orders ==> !IsAssignable(p.1)
    ensures r.Some? ==> forall k :: 0 <= k < |snaps| ==>
              ((snaps[k].id, snaps[k].status) in r.value.orders <==> !IsAssignable(snaps[k].status))
  {
    var blocked := NotAssignableOnes(snaps);
    if blocked != [] then
      var listed := IdsWithStatus(blocked);
      assert forall p :: p in listed ==> !IsAssignable(p.1) by {
        forall p | p in listed ensures !IsAssignable(p.1) {
          var k :| 0 <= k < |listed| && listed[k] == p;
          assert blocked[k] in blocked;
        }
      }
      assert forall k :: 0 <= k < |snaps| && !IsAssignable(snaps[k].status) ==>
               (snaps[k].id, snaps[k].status) in listed by {
        forall k | 0 <= k < |snaps| && !IsAssignable(snaps[k].status)
          ensures (snaps[k].id, snaps[k].status) in listed
        {
          assert snaps[k] in blocked;
          var i :| 0 <= i < |blocked| && blocked[i] == snaps[k];
          assert listed[i] == (snaps[k].id, snaps[k].status);
        }
      }
      Some(NotAssignable(listed))
    else None
  }

  /** A row after assignment. */
  function AssignedTo(o: Order, driverId: UserId): Order
  {
    o.(assignedDriverId := Some(driverId), status := Assigned)
  }

  function AssignEvent(id: OrderId, driverId: UserId, actor: Option<Actor>): TrackingEvent
  {
    TrackingEvent(id, Some(DriverAssigned), None, Some(Assigned), None,
                  Some("Assigned to driver " + driverId), None, None,
                  if actor.Some? then Some(actor.value.id) else None,
                  if actor.Some? then Some(actor.value.role) else None,
                  None)
  }

  function AssignEvents(ids: seq<OrderId>, driverId: UserId, actor: Option<Actor>): (r: seq<TrackingEvent>)
    ensures |r| == |ids| && forall k :: 0 <= k < |ids| ==> r[k] == AssignEvent(ids[k], driverId, actor)
  {
    seq(|ids|, k requires 0 <= k < |ids| => AssignEvent(ids[k], driverId, actor))
  }

  function CommitAssignment(orders: map<OrderId, Order>, ids: seq<OrderId>, driverId: UserId): (r: map<OrderId, Order>)
    ensures r.Keys == orders.Keys && forall id | id in r :: r[id].id == orders[id].id
  {
    map id | id in orders :: if id in ids then AssignedTo(orders[id], driverId) else orders[id]
  }

  lemma AssignKeepsProjection(orders: map<OrderId, Order>, events: seq<TrackingEvent>,
                              ids: seq<OrderId>, driverId: UserId, actor: Option<Actor>)
    requires StatusMatchesLog(orders, events)
    ensures StatusMatchesLog(CommitAssignment(orders, ids, driverId), events + AssignEvents(ids, driverId, actor))
  {
    var more := AssignEvents(ids, driverId, actor);
    var after := CommitAssignment(orders, ids, driverId);
    forall id | id in after
      ensures LastStatus(events + more, id) == Some(after[id].status)
    {
      LastStatusAppend(events, more, id);
      LastStatusUniform(more, id, Some(Assigned));
      if id in ids {
        var k :| 0 <= k < |ids| && ids[k] == id;
        assert more[k].orderId == id;
      } else {
        assert forall k :: 0 <= k < |more| ==> more[k].orderId != id;
      }
    }
  }

  /** Assignment is accepted exactly when the batch is non-empty, the target
      is a driver, the ids are distinct and resolve, and every order is
      pending or in exception. */
  lemma AssignmentOkIff(orders: map<OrderId, Order>, users: map<UserId, Role>,
                        ids: seq<OrderId>, driverId: UserId)
    ensures ValidateAssignment(orders, users, ids, driverId).None? <==>
      && |ids| > 0
      && driverId in users && users[driverId] == Driver
      && Distinct(ids)
      && forall k :: 0 <= k < |ids| ==> ids[k] in orders && IsAssignable(orders[ids[k]].status)
  {
    FoundCount(ids, orders);
    if |ids| > 0 && driverId in users && users[driverId] == Driver && |Found(ids, orders)| == |ids| {
      var snaps := Snapshots(ids, orders);
      assert forall k :: 0 <= k < |ids| ==> snaps[k] == orders[ids[k]];
    }
  }

  /** Assignment moves an order in exception straight to `assigned`, an edge
      the transition graph does not have. */
  lemma AssignBypassesGraph(orders: map<OrderId, Order>, users: map<UserId, Role>, id: OrderId, driverId: UserId)
    requires driverId in users && users[driverId] == Driver
    requires id in orders && orders[id].status == Exception
    ensures ValidateAssignment(orders, users, [id], driverId).None?
    ensures CommitAssignment(orders, [id], driverId)[id].status == Assigned
    ensures !IsLegalTransition(orders[id].status, Assigned)
  {
    AssignmentOkIff(orders, users, [id], driverId);
  }

  /** `assignOrdersToDriver`: either the first failing check's error with the
      store unchanged, or every requested order assigned to the driver with
      status `assigned` and one DRIVER_ASSIGNED row per id. */
  method AssignOrdersToDriver(db: Database, ids: seq<OrderId>, driverId: UserId, actor: Option<Actor>)
    returns (r: Result<seq<Order>, WorkflowError>)
    requires db.Valid()
    modifies db
    ensures db.Valid()
    ensures db.users == old(db.users) && db.addresses == old(db.addresses) && db.orderCounter == old(db.orderCounter)
    ensures match ValidateAssignment(old(db.orders), old(db.users), ids, driverId)
      case Some(e) =>
        r == Err(e) && db.orders == old(db.orders) && db.events == old(db.events)
      case None =>
        && db.orders == CommitAssignment(old(db.orders), ids, driverId)
        && db.events == old(db.events) + AssignEvents(ids, driverId, actor)
        && r.Ok? && |r.value| == |ids|
        && forall k :: 0 <= k < |ids| ==> ids[k] in db.orders && r.value[k] == db.orders[ids[k]]
  {
    if |ids| == 0 {
      return Err(EmptyOrderIds);
    }
    if driverId !in db.users || db.users[driverId] != Driver {
      return Err(DriverInvalid);
    }
    if |Found(ids, db.orders)| != |ids| {
      return Err(SomeOrdersNotFound);
    }
    FoundCount(ids, db.orders);
    var blocked := NotAssignableOnes(Snapshots(ids, db.orders));
    if blocked != [] {
      return Err(NotAssignable(IdsWithStatus(blocked)));
    }
    assert ValidateAssignment(db.orders, db.users, ids, driverId).None?;
    var rows := CommitAssignmentTx(db, ids, driverId, actor);
    r := Ok(rows);
  }

  /** The assignment transaction: one `updateMany` setting the driver and
      status `assigned`, one `createMany` of DRIVER_ASSIGNED rows; returns
      the updated rows in request order. */
  method CommitAssignmentTx(db: Database, ids: seq<OrderId>, driverId: UserId, actor: Option<Actor>)
    returns (rows: seq<Order>)
    requires db.Valid()
    requires forall k :: 0 <= k < |ids| ==> ids[k] in db.orders
    modifies db
    ensures db.Valid()
    ensures db.users == old(db.users) && db.addresses == old(db.addresses) && db.orderCounter == old(db.orderCounter)
    ensures db.orders == CommitAssignment(old(db.orders), ids, driverId)
    ensures db.events == old(db.events) + AssignEvents(ids, driverId, actor)
    ensures |rows| == |ids| && forall k :: 0 <= k < |ids| ==> ids[k] in db.orders && rows[k] == db.orders[ids[k]]
  {
    AssignKeepsProjection(db.orders, db.events, ids, driverId, actor);
    var after := CommitAssignment(db.orders, ids, driverId);
    db.orders := after;
    db.events := db.events + AssignEvents(ids, driverId, actor);
    rows := Snapshots(ids, after);
  }
}
