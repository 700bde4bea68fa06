/** The Prisma order repository: the parcel plan and the initial row and
    tracking event of `createOrder`, and the query construction and
    pagination arithmetic of `listOrders`. */
module OrderRepo {
  import opened Common
  import opened Text
  import opened Store
  import opened OrderNumber

  // ---------- createOrder ----------

  /** One parcel as the payload describes it. */
  datatype ParcelInput = ParcelInput(
    weightKg: Option<real>,
    lengthCm: Option<real>,
    widthCm: Option<real>,
    heightCm: Option<real>)

  /** The fields of the create payload the repository reads. */
  datatype CreateOrderPayload = CreateOrderPayload(
    pickupAddress: string,
    dropoffAddress: string,
    destinationCity: Option<string>,
    senderName: Option<string>,
    senderPhone: Option<string>,
    senderAddress: Option<string>,
    receiverName: Option<string>,
    receiverPhone: Option<string>,
    receiverAddress: Option<string>,
    serviceType: Option<string>,
    codAmount: Option<real>,
    currency: Option<string>,
    weightKg: Option<real>,
    pieceTotal: Option<int>,
    parcels: Option<seq<ParcelInput>>)

  /** `parcels?.length` is truthy: the list is present and non-empty. */
  predicate HasParcels(parcels: Option<seq<ParcelInput>>)
  {
    parcels.Some? && |parcels.value| > 0
  }

  /** `payload.pieceTotal ?? (parcels?.length ? parcels.length : 1)`. */
  function PieceTotal(pieceTotal: Option<int>, parcels: Option<seq<ParcelInput>>): (t: int)
    ensures pieceTotal.Some? ==> t == pieceTotal.value
    ensures pieceTotal.None? ==> t >= 1
  {
    match pieceTotal
    case Some(n) => n
    case None => if HasParcels(parcels) then |parcels.value| else 1
  }

  /** The scan code of piece `pieceNo`: `${orderNumber}-${pieceNo}/${pieceTotal}`. */
  function ParcelCode(orderNumber: string, pieceNo: nat, pieceTotal: int): string
  {
    orderNumber + "-" + DecimalString(pieceNo) + "/" + IntString(pieceTotal)
  }

  /** The parcels created with an order: one per input parcel, numbered from
      1 in input order, or a single undimensioned piece when there are none. */
  function ParcelPlan(orderNumber: string, pieceTotal: Option<int>, parcels: Option<seq<ParcelInput>>)
    : (r: seq<Parcel>)
    ensures |r| == if HasParcels(parcels) then |parcels.value| else 1
    ensures forall i :: 0 <= i < |r| ==>
              && r[i].pieceNo == i + 1
              && r[i].pieceTotal == PieceTotal(pieceTotal, parcels)
              && r[i].parcelCode == ParcelCode(orderNumber, i + 1, PieceTotal(pieceTotal, parcels))
    ensures HasParcels(parcels) ==> forall i :: 0 <= i < |r| ==>
              && r[i].weightKg == parcels.value[i].weightKg
              && r[i].lengthCm == parcels.value[i].lengthCm
              && r[i].widthCm == parcels.value[i].widthCm
              && r[i].heightCm == parcels.value[i].heightCm
    ensures !HasParcels(parcels) ==>
              r[0].weightKg.None? && r[0].lengthCm.None? && r[0].widthCm.None? && r[0].heightCm.None?
  {
    var total := PieceTotal(pieceTotal, parcels);
    if HasParcels(parcels) then
      var ps := parcels.value;
      seq(|ps|, i requires 0 <= i < |ps| =>
        Parcel(i + 1, total, ParcelCode(orderNumber, i + 1, total),
               ps[i].weightKg, ps[i].lengthCm, ps[i].widthCm, ps[i].heightCm))
    else
      [Parcel(1, total, ParcelCode(orderNumber, 1, total), None, None, None, None)]
  }

  /** Without an explicit total, every piece's total is the number of pieces made. */
  lemma DefaultTotalCountsPieces(orderNumber: string, parcels: Option<seq<ParcelInput>>)
    ensures forall i :: 0 <= i < |ParcelPlan(orderNumber, None, parcels)| ==>
              ParcelPlan(orderNumber, None, parcels)[i].pieceTotal == |ParcelPlan(orderNumber, None, parcels)|
  {
  }

  /** Within one order, a parcel code determines the piece number. */
  lemma ParcelCodeInjective(orderNumber: string, a: nat, b: nat, t: int)
    requires ParcelCode(orderNumber, a, t) == ParcelCode(orderNumber, b, t)
    ensures a == b
  {
    MiddleCancel(orderNumber + "-", DecimalString(a), DecimalString(b), "/", IntString(t));
    DecimalStringInjective(a, b);
  }

  /** Equal strings with equal head, separator and tail have equal middles. */
  lemma MiddleCancel(head: string, x: string, y: string, sep: string, tail: string)
    requires head + x + sep + tail == head + y + sep + tail
    ensures x == y
  {
    var sx, sy := head + x + sep + tail, head + y + sep + tail;
    assert |x| == |y|;
    assert x == sx[|head|..|head| + |x|];
    assert y == sy[|head|..|head| + |y|];
  }

  /** The pieces of one order carry pairwise distinct codes. */
  lemma ParcelCodesDistinct(orderNumber: string, pieceTotal: Option<int>, parcels: Option<seq<ParcelInput>>)
    ensures forall i, j :: 0 <= i < j < |ParcelPlan(orderNumber, pieceTotal, parcels)| ==>
              ParcelPlan(orderNumber, pieceTotal, parcels)[i].parcelCode
              != ParcelPlan(orderNumber, pieceTotal, parcels)[j].parcelCode
  {
    var r := ParcelPlan(orderNumber, pieceTotal, parcels);
    var t := PieceTotal(pieceTotal, parcels);
    forall i, j | 0 <= i < j < |r| ensures r[i].parcelCode != r[j].parcelCode {
      if r[i].parcelCode == r[j].parcelCode {
        ParcelCodeInjective(orderNumber, i + 1, j + 1, t);
      }
    }
  }

  /** Parcels of orders with different counter values below 10^10 never
      share a code: the first twelve characters are the order number. */
  lemma ParcelCodesAcrossOrders(a: nat, b: nat, i: nat, j: nat, ta: int, tb: int)
    requires a < Pow10(10) && b < Pow10(10) && a != b
    ensures ParcelCode(FormatOrderNumber(a), i, ta) != ParcelCode(FormatOrderNumber(b), j, tb)
  {
    FormatShape(a);
    FormatShape(b);
    var na, nb := FormatOrderNumber(a), FormatOrderNumber(b);
    if na == nb {
      FormatInjective(a, b);
    }
    assert ParcelCode(na, i, ta)[..12] == na;
    assert ParcelCode(nb, j, tb)[..12] == nb;
  }

  /** The order row `createOrder` inserts. */
  function NewOrder(id: OrderId, customerId: UserId, orderNumber: string, p: CreateOrderPayload): (o: Order)
    ensures o.id == id && o.customerId == customerId && o.orderNumber == orderNumber
    ensures o.status == Pending && o.assignedDriverId.None? && o.currentWarehouseId.None?
    ensures o.pickupAttemptCount == 0 && o.deliveryAttemptCount == 0
    ensures o.parcels == ParcelPlan(orderNumber, p.pieceTotal, p.parcels)
  {
    Order(id, orderNumber, customerId, Pending, None, None, 0, 0, None, None,
          p.pickupAddress, p.dropoffAddress, p.destinationCity,
          p.senderName, p.senderPhone, p.senderAddress,
          p.receiverName, p.receiverPhone, p.receiverAddress,
          p.serviceType, p.codAmount, p.currency, p.weightKg,
          ParcelPlan(orderNumber, p.pieceTotal, p.parcels))
  }

  /** The single tracking row created with an order. */
  function CreationEvent(id: OrderId, actor: Option<Actor>): (e: TrackingEvent)
    ensures e.orderId == id && e.status == Some(Pending) && e.event == Some("created")
  {
    TrackingEvent(id, None, Some("created"), Some(Pending), None, Some("Order created"), None,
                  if actor.Some? then actor.value.warehouseId else None,
                  if actor.Some? then Some(actor.value.id) else None,
                  if actor.Some? then Some(actor.value.role) else None,
                  None)
  }

  /** `createOrder`: draws the next order number, inserts the order in
      status `pending` with its parcel plan, and logs exactly one `created`
      event for it. The row id is the fresh id the database generates. */
  method CreateOrder(db: Database, customerId: UserId, p: CreateOrderPayload, actor: Option<Actor>, newId: OrderId)
    returns (order: Order)
    requires db.Valid()
    requires newId !in db.orders
    modifies db
    ensures db.Valid()
    ensures db.orderCounter == Some(NextCounter(old(db.orderCounter)))
    ensures order == NewOrder(newId, customerId, FormatOrderNumber(NextCounter(old(db.orderCounter))), p)
    ensures db.orders == old(db.orders)[newId := order]
    ensures db.events == old(db.events) + [CreationEvent(newId, actor)]
    ensures db.users == old(db.users) && db.addresses == old(db.addresses)
  {
    var orderNumber := GetNextOrderNumber(db);
    order := NewOrder(newId, customerId, orderNumber, p);
    var e := CreationEvent(newId, actor);
    forall id | id in db.orders
      ensures LastStatus(db.events + [e], id) == Some(db.orders[id].status)
    {
      LastStatusAppend(db.events, [e], id);
      assert [e][..0] == [];
    }
    LastStatusAppend(db.events, [e], newId);
    assert [e][..0] == [];
    db.orders := db.orders[newId := order];
    db.events := db.events + [e];
  }

  // ---------- listOrders: pagination ----------

  /** The page window: `page ?? 1`, `min(limit ?? 120, 200)` and the rows skipped. */
  datatype PageWindow = PageWindow(page: int, limit: int, skip: int)

  function Window(page: Option<int>, limit: Option<int>): (w: PageWindow)
    ensures w.limit <= 200
    ensures limit.None? ==> w.limit == 120
    ensures limit.Some? && limit.value <= 200 ==> w.limit == limit.value
    ensures limit.Some? && limit.value > 200 ==> w.limit == 200
    ensures page.None? ==> w.page == 1 && w.skip == 0
    ensures page.Some? ==> w.page == page.value
    ensures w.skip == (w.page - 1) * w.limit
  {
    var p := if page.Some? then page.value else 1;
    var l0 := if limit.Some? then limit.value else 120;
    var l := if l0 < 200 then l0 else 200;
    PageWindow(p, l, (p - 1) * l)
  }

  /** `Math.ceil(total / limit)` for a positive limit. */
  function PageCount(total: nat, limit: int): (c: nat)
    requires limit > 0
    ensures c * limit >= total
    ensures c > 0 ==> (c - 1) * limit < total
    ensures c == 0 <==> total == 0
  {
    var c := (total + limit - 1) / limit;
    assert total + limit - 1 == c * limit + (total + limit - 1) % limit;
    c
  }

  /** The rows a `skip`/`take` query returns out of `total` matching rows. */
  function Returned(total: nat, skip: nat, limit: nat): (n: nat)
    ensures n <= limit
    ensures skip < total ==> skip + n <= total && (n == limit || skip + n == total)
    ensures skip >= total ==> n == 0
  {
    if skip >= total then 0 else if limit < total - skip then limit else total - skip
  }

  predicate HasMore(skip: int, returned: nat, total: nat)
  {
    skip + returned < total
  }

  lemma MulPositive(x: int, l: int)
    requires x > 0 && l > 0
    ensures x * l > 0
  {
  }

  lemma MulStrict(a: int, b: int, l: int)
    requires l > 0
    ensures a < b <==> a * l < b * l
  {
    assert b * l - a * l == (b - a) * l;
    if a < b {
      MulPositive(b - a, l);
    } else if a > b {
      MulPositive(a - b, l);
      assert a * l - b * l == (a - b) * l;
    }
  }

  /** `hasMore` holds exactly when the page is not the last one. */
  lemma HasMoreIffNotLastPage(page: Option<int>, limit: Option<int>, total: nat)
    requires page.None? || page.value >= 1
    requires limit.None? || limit.value > 0
    ensures Window(page, limit).limit > 0 && Window(page, limit).skip >= 0
    ensures HasMore(Window(page, limit).skip,
                    Returned(total, Window(page, limit).skip, Window(page, limit).limit), total)
        <==> Window(page, limit).page < PageCount(total, Window(page, limit).limit)
  {
    var w := Window(page, limit);
    HasMoreCore(w.page, w.limit, total);
  }

  lemma HasMoreCore(p: int, l: int, total: nat)
    requires p >= 1 && l > 0
    ensures (p - 1) * l >= 0
    ensures HasMore((p - 1) * l, Returned(total, (p - 1) * l, l), total) <==> p < PageCount(total, l)
  {
    MulStrict(0, p - 1, l);
    var skip: nat := (p - 1) * l;
    var c := PageCount(total, l);
    assert skip + l == p * l;
    if skip >= total {
      if c > 0 {
        MulStrict(c as int - 1, p - 1, l);
      }
    } else {
      MulStrict(c as int - 1, p, l);
      MulStrict(p, c, l);
    }
  }

  // ---------- listOrders: the where object ----------

  /** The searchable columns of the free-text filter. */
  datatype SearchField =
    | IdEquals | PickupAddressContains | DropoffAddressContains
    | OrderNumberEquals | OrderNumberContains | ParcelCodeContains
    | CustomerNameOrEmailContains | WarehouseNameContains

  datatype SearchClause = SearchClause(field: SearchField, term: string)

  /** The `where` object: an optional OR-list of search clauses and the
      role filter columns. */
  datatype Where = Where(
    or: Option<seq<SearchClause>>,
    customerId: Option<UserId>,
    assignedDriverId: Option<UserId>)

  predicate IsHexDigit(c: char)
  {
    '0' <= c <= '9' || 'a' <= c <= 'f' || 'A' <= c <= 'F'
  }

  /** Position `i` of the UUID pattern accepts `c`: hyphens at 8, 13, 18
      and 23, the version digit 1-5 at 14, the variant digit 8, 9, a or b
      at 19, hex digits elsewhere; letters in either case. */
  predicate UuidCharOk(i: int, c: char)
  {
    if i == 8 || i == 13 || i == 18 || i == 23 then c == '-'
    else if i == 14 then '1' <= c <= '5'
    else if i == 19 then c == '8' || c == '9' || c == 'a' || c == 'b' || c == 'A' || c == 'B'
    else IsHexDigit(c)
  }

  /** The UUID test of the search term: versions 1 to 5 with the variant of
      section 4.1.1 of RFC 4122, compared case-insensitively. */
  predicate IsUuid(s: string)
  {
    |s| == 36 && forall i :: 0 <= i < 36 ==> UuidCharOk(i, s[i])
  }

  /** The pattern ignores case. */
  lemma UuidCaseInsensitive(s: string)
    ensures IsUuid(s) <==> IsUuid(AsciiLowerString(s))
  {
    var l := AsciiLowerString(s);
    forall i | 0 <= i < |s| ensures UuidCharOk(i, s[i]) <==> UuidCharOk(i, l[i]) {
      assert l[i] == AsciiLower(s[i]);
    }
  }

  /** A term that passes the UUID test has no whitespace at either end. */
  lemma UuidIsTrimmed(s: string)
    requires IsUuid(s)
    ensures !IsJsWhitespace(s[0]) && !IsJsWhitespace(s[35])
  {
    assert UuidCharOk(0, s[0]) && UuidCharOk(35, s[35]);
  }

  /** The clauses searched for a non-empty term, in the source's order. */
  function TextClauses(q: string): (r: seq<SearchClause>)
    ensures forall c :: c in r ==> c.term == q && c.field != IdEquals
  {
    [SearchClause(PickupAddressContains, q), SearchClause(DropoffAddressContains, q),
     SearchClause(OrderNumberEquals, q), SearchClause(OrderNumberContains, q),
     SearchClause(ParcelCodeContains, q), SearchClause(CustomerNameOrEmailContains, q),
     SearchClause(WarehouseNameContains, q)]
  }

  /** `listOrders`' construction of `where`, field by field: a search on the
      trimmed term when it is non-empty (an exact id clause only for a
      UUID), then the role filter: customers see their own orders, drivers
      the ones assigned to them, other roles everything. */
  method BuildWhere(userId: UserId, role: Role, q: Option<string>) returns (w: Where)
    ensures w.customerId == (if role == Customer then Some(userId) else None)
    ensures w.assignedDriverId == (if role == Driver then Some(userId) else None)
    ensures w.or.Some? <==> q.Some? && Trim(q.value) != ""
    ensures w.or.Some? ==> forall c :: c in w.or.value ==> c.term == Trim(q.value)
    ensures w.or.Some? ==> (SearchClause(IdEquals, Trim(q.value)) in w.or.value <==> IsUuid(Trim(q.value)))
    ensures w.or.Some? ==> w.or.value == (if IsUuid(Trim(q.value)) then [SearchClause(IdEquals, Trim(q.value))] else [])
                                         + TextClauses(Trim(q.value))
  {
    var term := if q.Some? then Some(Trim(q.value)) else None;
    w := Where(None, None, None);
    var isUuid := Truthy(term) && IsUuid(term.value);
    if Truthy(term) {
      var clauses := (if isUuid then [SearchClause(IdEquals, term.value)] else []) + TextClauses(term.value);
      assert SearchClause(IdEquals, term.value) in clauses <==> isUuid;
      w := w.(or := Some(clauses));
    }
    if role == Customer {
      w := w.(customerId := Some(userId));
    }
    if role == Driver {
      w := w.(assignedDriverId := Some(userId));
    }
  }

  /** The role-filter part of `where` applied to an order row. */
  predicate PassesRoleFilter(o: Order, w: Where)
  {
    && (w.customerId.Some? ==> o.customerId == w.customerId.value)
    && (w.assignedDriverId.Some? ==> o.assignedDriverId == w.assignedDriverId)
  }
}
