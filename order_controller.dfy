/** The orders HTTP controller: its own one-line address format, the
    address resolver, the read-access rule of `getOne`, the request guards
    of the bulk endpoints in front of the workflow, and the `create`
    endpoint, which saves typed addresses to the address book, stores the
    order and applies the payment gate. Replies are modelled by their HTTP
    status code. */
module OrderController {
  import opened Common
  import opened Text
  import opened Store
  import opened Workflow
  import opened OrderNumber
  import opened OrderRepo
  import CreateMapper

  // ---------- buildAddressText (controller format) ----------

  /** The controller's parts: addressLine1, addressLine2, street,
      "Bldg "+building, "Fl. "+floor, "Apt "+apartment, neighborhood, city,
      postalCode, country, "Landmark: "+landmark. */
  function AddressParts(f: AddressFields): seq<Option<string>>
  {
    [f.addressLine1, f.addressLine2, f.street,
     Prefixed("Bldg ", f.building), Prefixed("Fl. ", f.floor), Prefixed("Apt ", f.apartment),
     f.neighborhood, f.city, f.postalCode, f.country, Prefixed("Landmark: ", f.landmark)]
  }

  /** The non-empty parts joined with ", "; "" for a blank address. */
  function BuildAddressText(f: AddressFields): (r: string)
    ensures r == "" <==> Blank(f)
  {
    JoinedPartsEmptyIff(AddressParts(f));
    PartsBlank(f);
    Join(KeepTruthy(AddressParts(f)), ", ")
  }

  /** No part is truthy exactly for a blank address. */
  lemma PartsBlank(f: AddressFields)
    ensures (forall k :: 0 <= k < |AddressParts(f)| ==> !Truthy(AddressParts(f)[k])) <==> Blank(f)
  {
    var p := AddressParts(f);
    if forall k :: 0 <= k < |p| ==> !Truthy(p[k]) {
      assert !Truthy(p[0]) && !Truthy(p[1]) && !Truthy(p[2]) && !Truthy(p[3]) && !Truthy(p[4]) && !Truthy(p[5]);
      assert !Truthy(p[6]) && !Truthy(p[7]) && !Truthy(p[8]) && !Truthy(p[9]) && !Truthy(p[10]);
    }
  }

  /** With comma-free fields the line splits back into the present fields,
      in the controller's order and with its prefixes. */
  lemma BuildAddressTextSplits(f: AddressFields)
    requires CommaFree(f)
    ensures SplitOnSeparator(BuildAddressText(f)) == KeepTruthy(AddressParts(f))
  {
    if Truthy(f.building) { PrefixedNoComma("Bldg ", f.building.value); }
    if Truthy(f.floor) { PrefixedNoComma("Fl. ", f.floor.value); }
    if Truthy(f.apartment) { PrefixedNoComma("Apt ", f.apartment.value); }
    if Truthy(f.landmark) { PrefixedNoComma("Landmark: ", f.landmark.value); }
    JoinedPartsSplit(AddressParts(f));
  }

  /** The two formatters disagree: an address with only a building reads
      "Bldg " + building here and just the building in the mapper. */
  lemma FormatsDiffer(building: string)
    requires building != ""
    ensures var f := AddressFields(None, None, None, None, None, None, Some(building), None, None, None, None);
            && BuildAddressText(f) == "Bldg " + building
            && CreateMapper.BuildAddressText(f) == building
            && BuildAddressText(f) != CreateMapper.BuildAddressText(f)
  {
    var f := AddressFields(None, None, None, None, None, None, Some(building), None, None, None, None);
    KeepTruthySingle(AddressParts(f), 3);
    CreateMapper.OnlyBuilding(building);
    assert |"Bldg " + building| > |building|;
  }

  // ---------- resolveAddressesForOrderInput ----------

  datatype AddressInput = AddressInput(
    senderAddressId: Option<AddressId>,
    receiverAddressId: Option<AddressId>,
    pickupAddress: Option<string>,
    dropoffAddress: Option<string>,
    destinationCity: Option<string>)

  datatype ResolvedAddresses = ResolvedAddresses(
    pickupAddress: string,
    dropoffAddress: string,
    destinationCity: Option<string>)

  /** Both carry status 400. */
  datatype ResolveError = SenderAddressNotFound | ReceiverAddressNotFound

  /** `(s ?? "").trim()`. */
  function TypedLine(s: Option<string>): string
  {
    Trim(if s.Some? then s.value else "")
  }

  /** `resolveAddressesForOrderInput` over the address book `book`. */
  function ResolveAddresses(input: AddressInput, book: map<AddressId, AddressRow>)
    : (r: Result<ResolvedAddresses, ResolveError>)
    ensures r.Err? <==> (Truthy(input.senderAddressId) && input.senderAddressId.value !in book)
                        || (Truthy(input.receiverAddressId) && input.receiverAddressId.value !in book)
    ensures Truthy(input.senderAddressId) && input.senderAddressId.value !in book ==> r == Err(SenderAddressNotFound)
    ensures (!(Truthy(input.senderAddressId) && input.senderAddressId.value !in book)
             && Truthy(input.receiverAddressId) && input.receiverAddressId.value !in book)
            ==> r == Err(ReceiverAddressNotFound)
    ensures r.Ok? ==> r.value.pickupAddress
                      == if Truthy(input.senderAddressId) then BuildAddressText(book[input.senderAddressId.value].fields)
                         else TypedLine(input.pickupAddress)
    ensures r.Ok? ==> r.value.dropoffAddress
                      == if Truthy(input.receiverAddressId) then BuildAddressText(book[input.receiverAddressId.value].fields)
                         else TypedLine(input.dropoffAddress)
    ensures r.Ok? ==> r.value.destinationCity
                      == Coalesce(if Truthy(input.receiverAddressId) then book[input.receiverAddressId.value].fields.city else None,
                                  input.destinationCity)
  {
    var sid, rid := input.senderAddressId, input.receiverAddressId;
    if !Truthy(sid) && !Truthy(rid) then
      Ok(ResolvedAddresses(TypedLine(input.pickupAddress), TypedLine(input.dropoffAddress), input.destinationCity))
    else if Truthy(sid) && sid.value !in book then Err(SenderAddressNotFound)
    else if Truthy(rid) && rid.value !in book then Err(ReceiverAddressNotFound)
    else
      var sender := if Truthy(sid) then Some(book[sid.value]) else None;
      var receiver := if Truthy(rid) then Some(book[rid.value]) else None;
      Ok(ResolvedAddresses(
        if sender.Some? then BuildAddressText(sender.value.fields) else TypedLine(input.pickupAddress),
        if receiver.Some? then BuildAddressText(receiver.value.fields) else TypedLine(input.dropoffAddress),
        Coalesce(if receiver.Some? then receiver.value.fields.city else None, input.destinationCity)))
  }

  /** Typed lines come out trimmed: resolving again changes nothing. */
  lemma ResolveTypedIdempotent(input: AddressInput, book: map<AddressId, AddressRow>)
    requires !Truthy(input.senderAddressId) && !Truthy(input.receiverAddressId)
    ensures ResolveAddresses(input, book).Ok?
    ensures var r := ResolveAddresses(input, book).value;
            ResolveAddresses(input.(pickupAddress := Some(r.pickupAddress), dropoffAddress := Some(r.dropoffAddress)), book)
            == ResolveAddresses(input, book)
  {
    TrimIdempotent(if input.pickupAddress.Some? then input.pickupAddress.value else "");
    TrimIdempotent(if input.dropoffAddress.Some? then input.dropoffAddress.value else "");
  }

  // ---------- getOne ----------

  /** Who may read an order: managers and warehouse staff always, a
      customer its own orders, a driver the orders assigned to it. */
  predicate CanRead(o: Order, userId: UserId, role: Role)
  {
    match role
    case Manager => true
    case Warehouse => true
    case Customer => o.customerId == userId
    case Driver => o.assignedDriverId == Some(userId)
  }

  /** `getOne`: 404 for an unknown id, the order when readable, else 403. */
  function GetOne(orders: map<OrderId, Order>, id: OrderId, userId: UserId, role: Role): (r: Result<Order, int>)
    ensures id !in orders <==> r == Err(404)
    ensures id in orders ==> (r == Ok(orders[id]) <==> CanRead(orders[id], userId, role))
    ensures id in orders && !CanRead(orders[id], userId, role) ==> r == Err(403)
  {
    if id !in orders then Err(404)
    else if CanRead(orders[id], userId, role) then Ok(orders[id])
    else Err(403)
  }

  /** The list filter built for a user (as `BuildWhere` guarantees it)
      admits exactly the orders `getOne` serves that user. */
  lemma ListFilterMatchesGetOne(o: Order, userId: UserId, role: Role, w: Where)
    requires w.customerId == (if role == Customer then Some(userId) else None)
    requires w.assignedDriverId == (if role == Driver then Some(userId) else None)
    ensures PassesRoleFilter(o, w) <==> CanRead(o, userId, role)
  {
  }

  // ---------- request guards of the bulk endpoints ----------

  /** `req.body.orderIds`: an array of ids or some other JSON value. */
  datatype IdsField = IdArray(ids: seq<OrderId>) | NotAnArray

  /** `Array.isArray(orderIds) && orderIds.length > 0`. */
  predicate NonEmptyIds(f: IdsField)
  {
    f.IdArray? && |f.ids| > 0
  }

  /** Why a controller rejects a request before calling the workflow. */
  datatype Rejection = OrderIdsNotNonEmptyArray | MissingAction | MissingDriverId | Unauthorized

  function RejectionStatus(r: Rejection): int
  {
    if r == Unauthorized then 401 else 400
  }

  datatype StatusBulkBody = StatusBulkBody(
    orderIds: IdsField,
    action: Option<Action>,
    reasonCode: Option<ReasonCode>,
    note: Option<string>,
    region: Option<string>,
    warehouseId: Option<WarehouseId>,
    parcelId: Option<string>)

  datatype AssignBulkBody = AssignBulkBody(driverId: Option<UserId>, orderIds: IdsField)

  /** `updateStatusBulk`'s guards, in order: the id list, the action, the
      user; on passing, the workflow request they build. */
  function StatusBulkGuard(b: StatusBulkBody, user: Option<AuthUser>): (r: Result<(seq<OrderId>, UpdateArgs), Rejection>)
    ensures !NonEmptyIds(b.orderIds) ==> r == Err(OrderIdsNotNonEmptyArray)
    ensures NonEmptyIds(b.orderIds) && b.action.None? ==> r == Err(MissingAction)
    ensures NonEmptyIds(b.orderIds) && b.action.Some? && !Authenticated(user) ==> r == Err(Unauthorized)
    ensures r.Ok? <==> NonEmptyIds(b.orderIds) && b.action.Some? && Authenticated(user)
    ensures r.Ok? ==> r.value.0 == b.orderIds.ids
                      && r.value.1 == UpdateArgs(b.action.value, b.reasonCode, b.note, b.region,
                                                 b.warehouseId, b.parcelId, ActorOf(user.value))
  {
    if !NonEmptyIds(b.orderIds) then Err(OrderIdsNotNonEmptyArray)
    else if b.action.None? then Err(MissingAction)
    else if !Authenticated(user) then Err(Unauthorized)
    else Ok((b.orderIds.ids, UpdateArgs(b.action.value, b.reasonCode, b.note, b.region,
                                        b.warehouseId, b.parcelId, ActorOf(user.value))))
  }

  /** `assignBulk`'s guards, in order: the driver id, the id list, the user. */
  function AssignBulkGuard(b: AssignBulkBody, user: Option<AuthUser>): (r: Result<(seq<OrderId>, UserId), Rejection>)
    ensures !Truthy(b.driverId) ==> r == Err(MissingDriverId)
    ensures Truthy(b.driverId) && !NonEmptyIds(b.orderIds) ==> r == Err(OrderIdsNotNonEmptyArray)
    ensures Truthy(b.driverId) && NonEmptyIds(b.orderIds) && !Authenticated(user) ==> r == Err(Unauthorized)
    ensures r.Ok? <==> Truthy(b.driverId) && NonEmptyIds(b.orderIds) && Authenticated(user)
    ensures r.Ok? ==> r.value == (b.orderIds.ids, b.driverId.value)
  {
    if !Truthy(b.driverId) then Err(MissingDriverId)
    else if !NonEmptyIds(b.orderIds) then Err(OrderIdsNotNonEmptyArray)
    else if !Authenticated(user) then Err(Unauthorized)
    else Ok((b.orderIds.ids, b.driverId.value))
  }

  /** Behind the guards the workflow never sees an empty id list, so its
      own empty-list error is unreachable through the bulk endpoints. */
  lemma BulkNeverSendsEmptyIds(b: StatusBulkBody, user: Option<AuthUser>, orders: map<OrderId, Order>)
    requires StatusBulkGuard(b, user).Ok?
    ensures Validate(orders, StatusBulkGuard(b, user).value.0, StatusBulkGuard(b, user).value.1) != Err(EmptyOrderIds)
  {
  }

  lemma AssignNeverSendsEmptyIds(b: AssignBulkBody, user: Option<AuthUser>,
                                 orders: map<OrderId, Order>, users: map<UserId, Role>)
    requires AssignBulkGuard(b, user).Ok?
    ensures ValidateAssignment(orders, users, AssignBulkGuard(b, user).value.0, AssignBulkGuard(b, user).value.1)
            != Some(EmptyOrderIds)
  {
  }

  /** `updateStatusBulk`: the guards, then `updateOrderStatusMany`; a
      workflow error answers with its own status. */
  method UpdateStatusBulk(db: Database, b: StatusBulkBody, user: Option<AuthUser>, now: Timestamp)
    returns (status: int, reply: Option<seq<Order>>)
    requires db.Valid()
    modifies db
    ensures db.Valid()
    ensures db.users == old(db.users) && db.addresses == old(db.addresses) && db.orderCounter == old(db.orderCounter)
    ensures match StatusBulkGuard(b, user)
      case Err(rej) =>
        status == RejectionStatus(rej) && reply.None? && db.orders == old(db.orders) && db.events == old(db.events)
      case Ok(req) =>
        match Validate(old(db.orders), req.0, req.1)
        case Err(e) =>
          status == HttpStatus(e) && reply.None? && db.orders == old(db.orders) && db.events == old(db.events)
        case Ok(plan) =>
          && status == 200 && reply.Some? && |reply.value| == |req.0|
          && (forall k :: 0 <= k < |req.0| ==> req.0[k] in db.orders && reply.value[k] == db.orders[req.0[k]])
          && db.orders == CommitOrders(old(db.orders), req.0, req.1, plan, now)
          && db.events == old(db.events) + BatchEvents(req.0, req.1, plan)
  {
    var guard := StatusBulkGuard(b, user);
    if guard.Err? {
      return RejectionStatus(guard.error), None;
    }
    var r := UpdateOrderStatusMany(db, guard.value.0, guard.value.1, now);
    if r.Err? {
      status, reply := HttpStatus(r.error), None;
    } else {
      status, reply := 200, Some(r.value);
    }
  }

  /** `assignBulk`: the guards, then `assignOrdersToDriver`. */
  method AssignBulk(db: Database, b: AssignBulkBody, user: Option<AuthUser>)
    returns (status: int, reply: Option<seq<Order>>)
    requires db.Valid()
    modifies db
    ensures db.Valid()
    ensures db.users == old(db.users) && db.addresses == old(db.addresses) && db.orderCounter == old(db.orderCounter)
    ensures match AssignBulkGuard(b, user)
      case Err(rej) =>
        status == RejectionStatus(rej) && reply.None? && db.orders == old(db.orders) && db.events == old(db.events)
      case Ok(req) =>
        match ValidateAssignment(old(db.orders), old(db.users), req.0, req.1)
        case Some(e) =>
          status == HttpStatus(e) && reply.None? && db.orders == old(db.orders) && db.events == old(db.events)
        case None =>
          && status == 200 && reply.Some? && |reply.value| == |req.0|
          && (forall k :: 0 <= k < |req.0| ==> req.0[k] in db.orders && reply.value[k] == db.orders[req.0[k]])
          && db.orders == CommitAssignment(old(db.orders), req.0, req.1)
          && db.events == old(db.events) + AssignEvents(req.0, req.1, Some(ActorOf(user.value)))
  {
    var guard := AssignBulkGuard(b, user);
    if guard.Err? {
      return RejectionStatus(guard.error), None;
    }
    var r := AssignOrdersToDriver(db, guard.value.0, guard.value.1, Some(ActorOf(user.value)));
    if r.Err? {
      status, reply := HttpStatus(r.error), None;
    } else {
      status, reply := 200, Some(r.value);
    }
  }

  // ---------- create: saving typed addresses ----------

  /** Why `create` refuses to save an address. */
  datatype SaveFailure = PickupOwnerMissing | PickupSnapshotMissing | DropoffOwnerMissing | DropoffSnapshotMissing

  /** The mapped payload after the address-book step, the rows it inserted
      (in order) and the refusal that stopped it, if any. */
  datatype SaveOutcome = SaveOutcome(
    mapped: CreateMapper.MappedOrder,
    created: seq<AddressRow>,
    failure: Option<SaveFailure>)

  /** `mapped.customerEntityId ?? req.user.customerEntityId ?? null`. */
  function Owner(m: CreateMapper.MappedOrder, u: AuthUser): Option<string>
  {
    Coalesce(m.customerEntityId, u.customerEntityId)
  }

  predicate WantsPickupSave(m: CreateMapper.MappedOrder)
  {
    m.savePickup && !Truthy(m.senderAddressId)
  }

  predicate WantsDropoffSave(m: CreateMapper.MappedOrder)
  {
    m.saveDropoff && !Truthy(m.receiverAddressId)
  }

  /** The payload once the dropoff address has been saved as `row`. */
  function WithDropoffRow(m: CreateMapper.MappedOrder, row: AddressRow): CreateMapper.MappedOrder
  {
    m.(receiverAddressId := Some(row.id),
       dropoffAddress := BuildAddressText(row.fields),
       destinationCity := if !Truthy(m.destinationCity) && Truthy(row.fields.city) then row.fields.city
                          else m.destinationCity)
  }

  /** The pickup half of the address-book step. */
  function SavePickup(m: CreateMapper.MappedOrder, owner: Option<string>, pickupId: AddressId): SaveOutcome
  {
    if !WantsPickupSave(m) then SaveOutcome(m, [], None)
    else if !Truthy(owner) then SaveOutcome(m, [], Some(PickupOwnerMissing))
    else if m.senderSnapshot.None? then SaveOutcome(m, [], Some(PickupSnapshotMissing))
    else
      var row := AddressRow(pickupId, owner, m.senderSnapshot.value);
      SaveOutcome(m.(senderAddressId := Some(pickupId), pickupAddress := BuildAddressText(row.fields)), [row], None)
  }

  /** The dropoff half of the address-book step, after `pickupRows`. */
  function SaveDropoff(m: CreateMapper.MappedOrder, owner: Option<string>, dropoffId: AddressId,
                       pickupRows: seq<AddressRow>): SaveOutcome
  {
    if !WantsDropoffSave(m) then SaveOutcome(m, pickupRows, None)
    else if !Truthy(owner) then SaveOutcome(m, pickupRows, Some(DropoffOwnerMissing))
    else if m.receiverSnapshot.None? then SaveOutcome(m, pickupRows, Some(DropoffSnapshotMissing))
    else
      var row := AddressRow(dropoffId, owner, m.receiverSnapshot.value);
      SaveOutcome(WithDropoffRow(m, row), pickupRows + [row], None)
  }

  /** The address-book step of `create`: the pickup address is saved when
      asked for and no sender id is set, then the dropoff address likewise;
      each needs an owner and a structured snapshot, and a refusal stops
      the request after whatever was already inserted. */
  function SaveAddresses(m: CreateMapper.MappedOrder, owner: Option<string>, pickupId: AddressId, dropoffId: AddressId)
    : (s: SaveOutcome)
    ensures |s.created| <= 2
    ensures forall k :: 0 <= k < |s.created| ==> s.created[k].customerEntityId == owner && Truthy(owner)
    ensures WantsPickupSave(m) && !Truthy(owner) ==> s == SaveOutcome(m, [], Some(PickupOwnerMissing))
    ensures WantsPickupSave(m) && Truthy(owner) && m.senderSnapshot.None? ==> s == SaveOutcome(m, [], Some(PickupSnapshotMissing))
    ensures WantsDropoffSave(m) && !Truthy(owner) ==>
              s.failure == Some(if WantsPickupSave(m) then PickupOwnerMissing else DropoffOwnerMissing)
    ensures (&& WantsDropoffSave(m) && Truthy(owner) && m.receiverSnapshot.None?
             && !(WantsPickupSave(m) && m.senderSnapshot.None?))
            ==> && s.failure == Some(DropoffSnapshotMissing)
                && s.created == (if WantsPickupSave(m) then [AddressRow(pickupId, owner, m.senderSnapshot.value)] else [])
    ensures s.failure.None? <==>
              && (WantsPickupSave(m) ==> Truthy(owner) && m.senderSnapshot.Some?)
              && (WantsDropoffSave(m) ==> Truthy(owner) && m.receiverSnapshot.Some?)
    ensures s.failure.None? ==> |s.created| == (if WantsPickupSave(m) then 1 else 0) + (if WantsDropoffSave(m) then 1 else 0)
    ensures s.failure.None? && WantsPickupSave(m) ==> m.senderSnapshot.Some?
    ensures s.failure.None? && WantsDropoffSave(m) ==> m.receiverSnapshot.Some?
    ensures s.failure.None? && WantsPickupSave(m) ==>
              && s.created[0] == AddressRow(pickupId, owner, m.senderSnapshot.value)
              && s.mapped.senderAddressId == Some(pickupId)
              && s.mapped.pickupAddress == BuildAddressText(m.senderSnapshot.value)
    ensures s.failure.None? && WantsDropoffSave(m) ==>
              && s.created[|s.created| - 1] == AddressRow(dropoffId, owner, m.receiverSnapshot.value)
              && s.mapped.receiverAddressId == Some(dropoffId)
              && s.mapped.dropoffAddress == BuildAddressText(m.receiverSnapshot.value)
              && s.mapped.destinationCity == (if !Truthy(m.destinationCity) && Truthy(m.receiverSnapshot.value.city)
                                              then m.receiverSnapshot.value.city else m.destinationCity)
    ensures s.failure.None? && !WantsPickupSave(m) ==> s.mapped.pickupAddress == m.pickupAddress && s.mapped.senderAddressId == m.senderAddressId
    ensures s.failure.None? && !WantsDropoffSave(m) ==>
              s.mapped.dropoffAddress == m.dropoffAddress && s.mapped.receiverAddressId == m.receiverAddressId
              && s.mapped.destinationCity == m.destinationCity
    ensures s.mapped.amount == m.amount
  {
    var p := SavePickup(m, owner, pickupId);
    if p.failure.Some? then p else SaveDropoff(p.mapped, owner, dropoffId, p.created)
  }

  /** A dropoff refusal does not undo the pickup row already inserted. */
  lemma DropoffRefusalKeepsPickupRow(m: CreateMapper.MappedOrder, owner: Option<string>, pickupId: AddressId, dropoffId: AddressId)
    requires WantsPickupSave(m) && Truthy(owner) && m.senderSnapshot.Some?
    requires WantsDropoffSave(m) && m.receiverSnapshot.None?
    ensures SaveAddresses(m, owner, pickupId, dropoffId).failure == Some(DropoffSnapshotMissing)
    ensures SaveAddresses(m, owner, pickupId, dropoffId).created == [AddressRow(pickupId, owner, m.senderSnapshot.value)]
  {
  }

  /** The rows of `rows` added to the address book. */
  function AddRows(book: map<AddressId, AddressRow>, rows: seq<AddressRow>): map<AddressId, AddressRow>
    decreases |rows|
  {
    if rows == [] then book else AddRows(book[rows[0].id := rows[0]], rows[1..])
  }

  // ---------- create ----------

  /** `const { amount, ...repoPayload } = mapped`, as far as `createOrder`
      reads it. */
  function RepoPayload(m: CreateMapper.MappedOrder): (p: CreateOrderPayload)
    ensures p.pickupAddress == m.pickupAddress && p.dropoffAddress == m.dropoffAddress
    ensures p.destinationCity == m.destinationCity && p.codAmount == m.codAmount && p.currency == m.currency
    ensures p.pieceTotal == m.pieceTotal && p.parcels == m.parcels
  {
    CreateOrderPayload(
      m.pickupAddress, m.dropoffAddress, m.destinationCity,
      m.senderName, m.senderPhone, m.senderAddress,
      m.receiverName, m.receiverPhone, m.receiverAddress,
      m.serviceType, m.codAmount, m.currency, m.weightKg,
      m.pieceTotal, m.parcels)
  }

  /** The payment gate: with payments on, the amount must be a number > 0. */
  predicate PaymentRefused(paymentsEnabled: bool, amount: Option<real>)
  {
    paymentsEnabled && !(amount.Some? && amount.value > 0.0)
  }

  /** The schema already refuses amounts <= 0, so behind the mapper the
      payment gate fires exactly when the amount is missing. */
  lemma PaymentGateOnlyMissingAmount(d: CreateMapper.CreateInput, book: map<AddressId, AddressRow>,
                                     isUuid: string -> bool, isDateTime: string -> bool, owner: Option<string>,
                                     pickupId: AddressId, dropoffId: AddressId)
    requires CreateMapper.MapCreateOrder(d, book, isUuid, isDateTime).Ok?
    ensures var s := SaveAddresses(CreateMapper.MapCreateOrder(d, book, isUuid, isDateTime).value, owner, pickupId, dropoffId);
            PaymentRefused(true, s.mapped.amount) <==> s.mapped.amount.None?
  {
    var m := CreateMapper.MapCreateOrder(d, book, isUuid, isDateTime).value;
    assert m.amount == d.amount;
  }

  /** Inserts one address-book row; nothing else changes. */
  method InsertAddress(db: Database, row: AddressRow)
    requires db.Valid()
    modifies db
    ensures db.Valid()
    ensures db.addresses == old(db.addresses)[row.id := row]
    ensures db.orders == old(db.orders) && db.events == old(db.events)
    ensures db.users == old(db.users) && db.orderCounter == old(db.orderCounter)
  {
    db.addresses := db.addresses[row.id := row];
  }

  /** The pickup half on the store. */
  method SavePickupAddress(db: Database, m: CreateMapper.MappedOrder, owner: Option<string>, pickupId: AddressId)
    returns (s: SaveOutcome)
    requires db.Valid()
    modifies db
    ensures db.Valid()
    ensures s == SavePickup(m, owner, pickupId)
    ensures db.addresses == AddRows(old(db.addresses), s.created)
    ensures forall id :: id in old(db.addresses) && id != pickupId ==>
              id in db.addresses && db.addresses[id] == old(db.addresses)[id]
    ensures db.orders == old(db.orders) && db.events == old(db.events)
    ensures db.users == old(db.users) && db.orderCounter == old(db.orderCounter)
  {
    var mapped := m;
    if mapped.savePickup && !Truthy(mapped.senderAddressId) {
      if !Truthy(owner) {
        return SaveOutcome(mapped, [], Some(PickupOwnerMissing));
      }
      if mapped.senderSnapshot.None? {
        return SaveOutcome(mapped, [], Some(PickupSnapshotMissing));
      }
      var row := AddressRow(pickupId, owner, mapped.senderSnapshot.value);
      InsertAddress(db, row);
      mapped := mapped.(senderAddressId := Some(row.id));
      mapped := mapped.(pickupAddress := BuildAddressText(row.fields));
      return SaveOutcome(mapped, [row], None);
    }
    s := SaveOutcome(mapped, [], None);
  }

  /** The dropoff half on the store, after the rows `pickupRows`. */
  method SaveDropoffAddress(db: Database, m: CreateMapper.MappedOrder, owner: Option<string>, dropoffId: AddressId,
                            pickupRows: seq<AddressRow>)
    returns (s: SaveOutcome)
    requires db.Valid()
    modifies db
    ensures db.Valid()
    ensures s == SaveDropoff(m, owner, dropoffId, pickupRows)
    ensures |s.created| == |pickupRows| ==> db.addresses == old(db.addresses)
    ensures forall id :: id in old(db.addresses) && id != dropoffId ==>
              id in db.addresses && db.addresses[id] == old(db.addresses)[id]
    ensures |s.created| != |pickupRows| ==>
              s.created == pickupRows + [s.created[|pickupRows|]]
              && db.addresses == old(db.addresses)[dropoffId := s.created[|pickupRows|]]
    ensures db.orders == old(db.orders) && db.events == old(db.events)
    ensures db.users == old(db.users) && db.orderCounter == old(db.orderCounter)
  {
    var mapped := m;
    if mapped.saveDropoff && !Truthy(mapped.receiverAddressId) {
      if !Truthy(owner) {
        return SaveOutcome(mapped, pickupRows, Some(DropoffOwnerMissing));
      }
      if mapped.receiverSnapshot.None? {
        return SaveOutcome(mapped, pickupRows, Some(DropoffSnapshotMissing));
      }
      var row := AddressRow(dropoffId, owner, mapped.receiverSnapshot.value);
      InsertAddress(db, row);
      mapped := mapped.(receiverAddressId := Some(row.id));
      mapped := mapped.(dropoffAddress := BuildAddressText(row.fields));
      if !Truthy(mapped.destinationCity) && Truthy(row.fields.city) {
        mapped := mapped.(destinationCity := row.fields.city);
      }
      return SaveOutcome(mapped, pickupRows + [row], None);
    }
    s := SaveOutcome(mapped, pickupRows, None);
  }

  /** The address-book step run on the store: the pickup half, then, unless
      it refused, the dropoff half. */
  method SaveToAddressBook(db: Database, m: CreateMapper.MappedOrder, owner: Option<string>,
                           pickupId: AddressId, dropoffId: AddressId)
    returns (s: SaveOutcome)
    requires db.Valid()
    requires pickupId !in db.addresses && dropoffId !in db.addresses && pickupId != dropoffId
    modifies db
    ensures db.Valid()
    ensures forall id :: id in old(db.addresses) ==> id in db.addresses && db.addresses[id] == old(db.addresses)[id]
    ensures s == SaveAddresses(m, owner, pickupId, dropoffId)
    ensures db.addresses == AddRows(old(db.addresses), s.created)
    ensures db.orders == old(db.orders) && db.events == old(db.events)
    ensures db.users == old(db.users) && db.orderCounter == old(db.orderCounter)
  {
    var p := SavePickupAddress(db, m, owner, pickupId);
    if p.failure.Some? {
      return p;
    }
    s := SaveDropoffAddress(db, p.mapped, owner, dropoffId, p.created);
    if |s.created| != |p.created| {
      AddRowsSnoc(old(db.addresses), p.created, s.created[|p.created|]);
    }
  }

  lemma {:induction false} AddRowsSnoc(book: map<AddressId, AddressRow>, rows: seq<AddressRow>, row: AddressRow)
    ensures AddRows(book, rows + [row]) == AddRows(book, rows)[row.id := row]
    decreases |rows|
  {
    if rows != [] {
      assert (rows + [row])[1..] == rows[1..] + [row];
      AddRowsSnoc(book[rows[0].id := rows[0]], rows[1..], row);
    }
  }

  /** `create`. The mapper runs over the current address book; an error it
      throws answers with its own status (400 for an unresolved id) or 500
      (a schema error carries none). The address-book step may insert rows
      before refusing with 400. Otherwise the order is stored, and with
      payments enabled a missing amount is refused with 400 only after the
      order exists. `newOrderId`, `pickupId` and `dropoffId` are the ids the
      database generates for the inserted rows. */
  method Create(db: Database, d: CreateMapper.CreateInput, user: Option<AuthUser>, paymentsEnabled: bool,
                isUuid: string -> bool, isDateTime: string -> bool, newOrderId: OrderId, pickupId: AddressId, dropoffId: AddressId)
    returns (status: int, reply: Option<Order>)
    requires db.Valid()
    requires newOrderId !in db.orders
    requires pickupId !in db.addresses && dropoffId !in db.addresses && pickupId != dropoffId
    modifies db
    ensures db.Valid()
    ensures db.users == old(db.users)
    ensures !Authenticated(user) ==>
              status == 401 && reply.None? && db.orders == old(db.orders) && db.events == old(db.events)
              && db.addresses == old(db.addresses) && db.orderCounter == old(db.orderCounter)
    ensures Authenticated(user) ==>
      match CreateMapper.MapCreateOrder(d, old(db.addresses), isUuid, isDateTime)
      case Err(e) =>
        && status == (if e.Invalid? then 500 else 400) && reply.None?
        && db.orders == old(db.orders) && db.events == old(db.events)
        && db.addresses == old(db.addresses) && db.orderCounter == old(db.orderCounter)
      case Ok(m) =>
        var s := SaveAddresses(m, Owner(m, user.value), pickupId, dropoffId);
        var order := NewOrder(newOrderId, user.value.id, FormatOrderNumber(NextCounter(old(db.orderCounter))), RepoPayload(s.mapped));
        && db.addresses == AddRows(old(db.addresses), s.created)
        && (s.failure.Some? ==>
              status == 400 && reply.None? && db.orders == old(db.orders) && db.events == old(db.events)
              && db.orderCounter == old(db.orderCounter))
        && (s.failure.None? ==>
              && db.orders == old(db.orders)[newOrderId := order]
              && db.events == old(db.events) + [CreationEvent(newOrderId, Some(ActorOf(user.value)))]
              && db.orderCounter == Some(NextCounter(old(db.orderCounter)))
              && (PaymentRefused(paymentsEnabled, s.mapped.amount) ==> status == 400 && reply.None?)
              && (!PaymentRefused(paymentsEnabled, s.mapped.amount) ==> status == 201 && reply == Some(order)))
  {
    if !Authenticated(user) {
      return 401, None;
    }
    var u := user.value;
    var mappedOrErr := CreateMapper.MapCreateOrder(d, db.addresses, isUuid, isDateTime);
    if mappedOrErr.Err? {
      return if mappedOrErr.error.Invalid? then 500 else 400, None;
    }
    var m := mappedOrErr.value;
    var s := SaveToAddressBook(db, m, Owner(m, u), pickupId, dropoffId);
    if s.failure.Some? {
      return 400, None;
    }
    var order := CreateOrder(db, u.id, RepoPayload(s.mapped), Some(ActorOf(u)), newOrderId);
    if PaymentRefused(paymentsEnabled, s.mapped.amount) {
      return 400, None;
    }
    status, reply := 201, Some(order);
  }
}
