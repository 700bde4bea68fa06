/** The persistent state the workflow reads and writes: order rows, the
    append-only tracking-event log, the user table (only its role column is
    read), the address book and the order-number counter row, as a single
    object `Database`
    whose fields the operations update in place. */
module Store {
  import opened Common
  import opened Text

  type OrderId = string
  type UserId = string
  type WarehouseId = string
  /** A value of the ReasonCode enumeration, carried as its name. */
  type ReasonCode = string
  /** A server clock reading, passed in by the caller. */
  type Timestamp = int

  datatype Role = Customer | Driver | Warehouse | Manager

  /** The order lifecycle statuses the workflow uses. */
  datatype Status =
    | Pending | Assigned | PickupInProgress | PickedUp | AtWarehouse | InTransit
    | OutForDelivery | Delivered | Exception | Cancelled | ReturnInProgress | Returned

  /** The tracking actions. `Delivered` and `Cancelled` also name statuses,
      so both are always written qualified (`Action.Delivered`). */
  datatype Action =
    | OrderCreated | DriverAssigned | DriverRejected
    | PickupStarted | PickupAttempt | PickupConfirmed | PickupFailed
    | ArrivedAtWarehouse | Sorted | Dispatched
    | DeliveryStarted | DeliveryAttempt | Delivered | DeliveryFailed
    | OnHold | Cancelled
    | ReturnRequested | ReturnDispatched | ReturnDelivered

  /** The caller as the authentication layer describes it. */
  datatype Actor = Actor(id: UserId, role: Role, warehouseId: Option<WarehouseId>)

  /** The user a verified token carries (`req.user`); its role is always set. */
  datatype AuthUser = AuthUser(
    id: UserId,
    role: Role,
    warehouseId: Option<WarehouseId>,
    customerEntityId: Option<string>)

  /** `req.user?.id` is truthy. */
  predicate Authenticated(user: Option<AuthUser>)
  {
    user.Some? && user.value.id != ""
  }

  /** `{ id, role, warehouseId: warehouseId ?? null }`. */
  function ActorOf(u: AuthUser): Actor
  {
    Actor(u.id, u.role, u.warehouseId)
  }

  /** The answer of the document-download endpoints: a URL presigned for
      `key` that expires after `expiresIn` seconds, or an error status. */
  datatype UrlReply = Presigned(key: string, expiresIn: nat) | Refused(status: int)

  /** One physical piece of an order with its scan code. */
  datatype Parcel = Parcel(
    pieceNo: nat,
    pieceTotal: int,
    parcelCode: string,
    weightKg: Option<real>,
    lengthCm: Option<real>,
    widthCm: Option<real>,
    heightCm: Option<real>)

  /** An order row. */
  datatype Order = Order(
    id: OrderId,
    orderNumber: string,
    customerId: UserId,
    status: Status,
    assignedDriverId: Option<UserId>,
    currentWarehouseId: Option<WarehouseId>,
    pickupAttemptCount: nat,
    deliveryAttemptCount: nat,
    lastExceptionReason: Option<ReasonCode>,
    lastExceptionAt: Option<Timestamp>,
    pickupAddress: string,
    dropoffAddress: string,
    destinationCity: Option<string>,
    senderName: Option<string>,
    senderPhone: Option<string>,
    senderAddress: Option<string>,
    receiverName: Option<string>,
    receiverPhone: Option<string>,
    receiverAddress: Option<string>,
    serviceType: Option<string>,
    codAmount: Option<real>,
    currency: Option<string>,
    weightKg: Option<real>,
    parcels: seq<Parcel>)

  /** The structured fields of an address (all optional strings). */
  datatype AddressFields = AddressFields(
    country: Option<string>,
    city: Option<string>,
    neighborhood: Option<string>,
    street: Option<string>,
    addressLine1: Option<string>,
    addressLine2: Option<string>,
    building: Option<string>,
    apartment: Option<string>,
    floor: Option<string>,
    landmark: Option<string>,
    postalCode: Option<string>)

  /** No field of the address is present and non-empty. */
  predicate Blank(f: AddressFields)
  {
    && !Truthy(f.country) && !Truthy(f.city) && !Truthy(f.neighborhood) && !Truthy(f.street)
    && !Truthy(f.addressLine1) && !Truthy(f.addressLine2) && !Truthy(f.building)
    && !Truthy(f.apartment) && !Truthy(f.floor) && !Truthy(f.landmark) && !Truthy(f.postalCode)
  }


  /** No field of the address contains a comma. */
  predicate CommaFree(f: AddressFields)
  {
    && NoCommaIn(f.country) && NoCommaIn(f.city) && NoCommaIn(f.neighborhood) && NoCommaIn(f.street)
    && NoCommaIn(f.addressLine1) && NoCommaIn(f.addressLine2) && NoCommaIn(f.building)
    && NoCommaIn(f.apartment) && NoCommaIn(f.floor) && NoCommaIn(f.landmark) && NoCommaIn(f.postalCode)
  }

  type AddressId = string

  /** An address-book row, owned by a customer entity. */
  datatype AddressRow = AddressRow(id: AddressId, customerEntityId: Option<string>, fields: AddressFields)

  /** A tracking row; `status` is null for informational actions. */
  datatype TrackingEvent = TrackingEvent(
    orderId: OrderId,
    action: Option<Action>,
    event: Option<string>,
    status: Option<Status>,
    reasonCode: Option<ReasonCode>,
    note: Option<string>,
    region: Option<string>,
    warehouseId: Option<WarehouseId>,
    actorId: Option<UserId>,
    actorRole: Option<Role>,
    parcelId: Option<string>)

  /** The status carried by the latest event of order `id` that carries one. */
  function LastStatus(events: seq<TrackingEvent>, id: OrderId): Option<Status>
  {
    if events == [] then None
    else
      var e := events[|events| - 1];
      if e.orderId == id && e.status.Some? then e.status else LastStatus(events[..|events| - 1], id)
  }

  /** The order's status is the projection of its latest status-carrying event. */
  ghost predicate StatusMatchesLog(orders: map<OrderId, Order>, events: seq<TrackingEvent>)
  {
    forall id | id in orders :: LastStatus(events, id) == Some(orders[id].status)
  }

  /** Appending events: the appended part decides, unless it says nothing
      about the order's status. */
  lemma {:induction false} LastStatusAppend(events: seq<TrackingEvent>, more: seq<TrackingEvent>, id: OrderId)
    ensures LastStatus(events + more, id)
         == if LastStatus(more, id).Some? then LastStatus(more, id) else LastStatus(events, id)
  {
    if more != [] {
      var all := events + more;
      assert all[..|all| - 1] == events + more[..|more| - 1];
      LastStatusAppend(events, more[..|more| - 1], id);
    } else {
      assert events + more == events;
    }
  }

  /** In a run of events that all carry the same status `st`, the latest
      status of `id` is `st` iff some event of the run is about `id`. */
  lemma {:induction false} LastStatusUniform(run: seq<TrackingEvent>, id: OrderId, st: Option<Status>)
    requires forall k :: 0 <= k < |run| ==> run[k].status == st
    ensures LastStatus(run, id)
         == if st.Some? && exists k :: 0 <= k < |run| && run[k].orderId == id then st else None
  {
    if run != [] {
      var init := run[..|run| - 1];
      LastStatusUniform(init, id, st);
      if st.Some? && run[|run| - 1].orderId != id {
        if exists k :: 0 <= k < |run| && run[k].orderId == id {
          var k :| 0 <= k < |run| && run[k].orderId == id;
          assert k < |run| - 1 && init[k].orderId == id;
        }
      }
    }
  }

  class Database {
    var orders: map<OrderId, Order>
    var events: seq<TrackingEvent>
    var users: map<UserId, Role>
    var addresses: map<AddressId, AddressRow>
    /** The `orderNumber` counter row: absent until the first order. */
    var orderCounter: Option<nat>

    ghost predicate Valid()
      reads this
    {
      && (forall id | id in orders :: orders[id].id == id)
      && (forall id | id in addresses :: addresses[id].id == id)
      && StatusMatchesLog(orders, events)
    }

    constructor (users: map<UserId, Role>)
      ensures Valid()
      ensures this.orders == map[] && this.events == [] && this.users == users
      ensures this.addresses == map[] && this.orderCounter == None
    {
      this.orders := map[];
      this.events := [];
      this.users := users;
      this.addresses := map[];
      this.orderCounter := None;
    }
  }
}
