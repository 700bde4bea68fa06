/** The create-order request mapper: the schema's number preprocessor and
    field refinements, the cash-on-delivery gate, the mapper's one-line
    address format, and the mapping of a validated request onto the payload
    the repository and the controller consume, resolving address-book ids. */
module CreateMapper {
  import opened Common
  import opened Text
  import opened Store
  import opened OrderRepo

  // ---------- optionalNumber ----------

  /** A raw JSON value as the number preprocessor receives it. `Num` is a
      number that is not NaN. */
  datatype RawValue = Undefined | Null | Str(s: string) | Num(x: real) | NaN | Flag(b: bool)

  /** `optionalNumber()`'s preprocessing: "", null, undefined and anything
      whose `Number(...)` is NaN become undefined. The conversion of a
      non-empty string is `toNumber` (None for NaN). */
  function OptionalNumber(v: RawValue, toNumber: string -> Option<real>): (r: Option<real>)
    ensures v.Undefined? || v.Null? || v.NaN? || v == Str("") ==> r.None?
    ensures v.Num? ==> r == Some(v.x)
    ensures v.Str? && v.s != "" ==> r == toNumber(v.s)
  {
    match v
    case Undefined => None
    case Null => None
    case Str(s) => if s == "" then None else toNumber(s)
    case Num(x) => Some(x)
    case NaN => None
    case Flag(b) => Some(if b then 1.0 else 0.0)
  }

  /** The value a preprocessed number stands for when it is fed back in. */
  function AsRaw(n: Option<real>): RawValue
  {
    if n.Some? then Num(n.value) else Undefined
  }

  /** Preprocessing is idempotent: its output passes through it unchanged. */
  lemma OptionalNumberIdempotent(v: RawValue, toNumber: string -> Option<real>)
    ensures OptionalNumber(AsRaw(OptionalNumber(v, toNumber)), toNumber) == OptionalNumber(v, toNumber)
  {
  }

  // ---------- the validated request ----------

  /** The request after schema parsing; every number is the output of
      `OptionalNumber`. The enumerated and date fields hold the raw string
      the request carries (None for null or absent), because the schema
      checks them: `senderAddressType`/`receiverAddressType` are the
      `addressType` keys of the two structured addresses, the five payment
      fields are the `payment` group's enumerations, and the three schedule
      fields are the `schedule` group's dates. */
  datatype CreateInput = CreateInput(
    customerEntityId: Option<string>,
    senderName: Option<string>,
    senderPhone: Option<string>,
    receiverName: Option<string>,
    receiverPhone: Option<string>,
    senderAddressId: Option<AddressId>,
    receiverAddressId: Option<AddressId>,
    senderAddress: Option<AddressFields>,
    receiverAddress: Option<AddressFields>,
    senderAddressType: Option<string>,
    receiverAddressType: Option<string>,
    pickupAddress: string,
    dropoffAddress: string,
    destinationCity: Option<string>,
    savePickup: Option<bool>,
    saveDropoff: Option<bool>,
    serviceType: Option<string>,
    weightKg: Option<real>,
    codEnabled: Option<bool>,
    codAmount: Option<real>,
    currency: Option<string>,
    parcels: Option<seq<ParcelInput>>,
    pieceTotal: Option<int>,
    fragile: Option<bool>,
    dangerousGoods: Option<bool>,
    shipmentInsurance: Option<bool>,
    itemValue: Option<real>,
    paymentType: Option<string>,
    deliveryChargePaidBy: Option<string>,
    codPaidStatus: Option<string>,
    serviceChargePaidStatus: Option<string>,
    ifRecipientNotAvailable: Option<string>,
    plannedPickupAt: Option<string>,
    plannedDeliveryAt: Option<string>,
    promiseDate: Option<string>,
    amount: Option<real>)

  datatype Dimension = Weight | Length | Width | Height

  /** One schema issue. */
  datatype Issue =
    | PickupAddressTooShort | DropoffAddressTooShort
    | SenderAddressIdNotUuid | ReceiverAddressIdNotUuid
    | SenderAddressTypeInvalid | ReceiverAddressTypeInvalid
    | WeightNotPositive | CodAmountNotPositive | PieceTotalNotPositive
    | ItemValueNegative | AmountNotPositive
    | PaymentTypeInvalid | DeliveryChargePaidByInvalid | CodPaidStatusInvalid
    | ServiceChargePaidStatusInvalid | IfRecipientNotAvailableInvalid
    | PlannedPickupAtNotIso | PlannedDeliveryAtNotIso | PromiseDateNotIso
    | ParcelDimensionNotPositive(index: nat, dimension: Dimension)
    | CodAmountRequired | CurrencyRequired

  /** The values of the schema's enumerations. */
  const AddressTypes: set<string> := {"RESIDENTIAL", "BUSINESS"}
  const PaymentTypes: set<string> := {"CASH", "CARD", "COD", "TRANSFER", "OTHER"}
  const PaidByValues: set<string> := {"SENDER", "RECIPIENT", "COMPANY"}
  const PaidStatuses: set<string> := {"NOT_PAID", "PAID", "PARTIAL"}
  const RecipientActions: set<string> :=
    {"DO_NOT_DELIVER", "LEAVE_AT_DOOR", "LEAVE_WITH_CONCIERGE", "CALL_SENDER", "RESCHEDULE", "RETURN_TO_SENDER"}

  /** `z.enum(values).optional().nullable()`. */
  predicate InEnum(v: Option<string>, values: set<string>)
  {
    v.None? || v.value in values
  }

  /** `optionalIsoDateString()`: "", null and undefined pass, anything else
      must pass the schema library's datetime test `isDateTime`. */
  predicate DateOrAbsent(v: Option<string>, isDateTime: string -> bool)
  {
    v.None? || v.value == "" || isDateTime(v.value)
  }

  /** `v == null || v > 0`. */
  predicate PositiveOrAbsent(v: Option<real>)
  {
    v.None? || v.value > 0.0
  }

  function DimensionOf(p: ParcelInput, d: Dimension): Option<real>
  {
    match d
    case Weight => p.weightKg
    case Length => p.lengthCm
    case Width => p.widthCm
    case Height => p.heightCm
  }

  function DimensionIssue(i: nat, p: ParcelInput, d: Dimension): seq<Issue>
  {
    if PositiveOrAbsent(DimensionOf(p, d)) then [] else [ParcelDimensionNotPositive(i, d)]
  }

  /** The issues of the parcel at index `n`, in the schema's dimension order. */
  function OneParcelIssues(n: nat, p: ParcelInput): (r: seq<Issue>)
    ensures forall x :: x in r ==> x.ParcelDimensionNotPositive?
    ensures forall i: nat, d :: ParcelDimensionNotPositive(i, d) in r <==> i == n && !PositiveOrAbsent(DimensionOf(p, d))
  {
    DimensionIssue(n, p, Weight) + DimensionIssue(n, p, Length)
    + DimensionIssue(n, p, Width) + DimensionIssue(n, p, Height)
  }

  /** The refinements of the parcel list, one issue per offending dimension. */
  function ParcelIssues(ps: seq<ParcelInput>): (r: seq<Issue>)
    ensures forall x :: x in r ==> x.ParcelDimensionNotPositive?
    ensures forall i: nat, d :: ParcelDimensionNotPositive(i, d) in r <==> i < |ps| && !PositiveOrAbsent(DimensionOf(ps[i], d))
  {
    if ps == [] then []
    else
      var n := |ps| - 1;
      var init := ParcelIssues(ps[..n]);
      assert forall i :: 0 <= i < n ==> ps[..n][i] == ps[i];
      init + OneParcelIssues(n, ps[n])
  }

  /** A COD amount that is present and positive. */
  predicate AmountPositive(v: Option<real>)
  {
    v.Some? && v.value > 0.0
  }

  /** A currency that is present and at least two characters after trim. */
  predicate CurrencyValid(c: Option<string>)
  {
    Truthy(c) && |Trim(c.value)| >= 2
  }

  /** `shipment.codEnabled ?? false`. */
  predicate CodOn(d: CreateInput)
  {
    d.codEnabled == Some(true)
  }

  /** The cash-on-delivery gate of the schema's final refinement. */
  function CodIssues(d: CreateInput): (r: seq<Issue>)
    ensures !CodOn(d) ==> r == []
    ensures CodAmountRequired in r <==> CodOn(d) && !AmountPositive(d.codAmount)
    ensures CurrencyRequired in r <==> CodOn(d) && !CurrencyValid(d.currency)
    ensures forall x :: x in r ==> x == CodAmountRequired || x == CurrencyRequired
  {
    if !CodOn(d) then []
    else
      (if !AmountPositive(d.codAmount) then [CodAmountRequired] else [])
      + (if !CurrencyValid(d.currency) then [CurrencyRequired] else [])
  }

  function Check(ok: bool, issue: Issue): seq<Issue>
  {
    if ok then [] else [issue]
  }

  /** The UUID refinements of the two address-book ids. */
  function IdIssues(d: CreateInput, isUuid: string -> bool): (r: seq<Issue>)
    ensures forall x :: x in r ==> x == SenderAddressIdNotUuid || x == ReceiverAddressIdNotUuid
    ensures SenderAddressIdNotUuid in r <==> d.senderAddressId.Some? && !isUuid(d.senderAddressId.value)
    ensures ReceiverAddressIdNotUuid in r <==> d.receiverAddressId.Some? && !isUuid(d.receiverAddressId.value)
    ensures r == [] <==> (d.senderAddressId.None? || isUuid(d.senderAddressId.value))
                         && (d.receiverAddressId.None? || isUuid(d.receiverAddressId.value))
  {
    Check(d.senderAddressId.None? || isUuid(d.senderAddressId.value), SenderAddressIdNotUuid)
    + Check(d.receiverAddressId.None? || isUuid(d.receiverAddressId.value), ReceiverAddressIdNotUuid)
  }

  /** The `addressType` enumeration of the two structured addresses. */
  function AddressTypeIssues(d: CreateInput): (r: seq<Issue>)
    ensures forall x :: x in r ==> x == SenderAddressTypeInvalid || x == ReceiverAddressTypeInvalid
    ensures SenderAddressTypeInvalid in r <==> !InEnum(d.senderAddressType, AddressTypes)
    ensures ReceiverAddressTypeInvalid in r <==> !InEnum(d.receiverAddressType, AddressTypes)
    ensures r == [] <==> InEnum(d.senderAddressType, AddressTypes) && InEnum(d.receiverAddressType, AddressTypes)
  {
    Check(InEnum(d.senderAddressType, AddressTypes), SenderAddressTypeInvalid)
    + Check(InEnum(d.receiverAddressType, AddressTypes), ReceiverAddressTypeInvalid)
  }

  /** The two required address lines, at least three characters each. */
  function LineIssues(d: CreateInput): (r: seq<Issue>)
    ensures forall x :: x in r ==> x == PickupAddressTooShort || x == DropoffAddressTooShort
    ensures PickupAddressTooShort in r <==> |d.pickupAddress| < 3
    ensures DropoffAddressTooShort in r <==> |d.dropoffAddress| < 3
    ensures r == [] <==> |d.pickupAddress| >= 3 && |d.dropoffAddress| >= 3
  {
    Check(|d.pickupAddress| >= 3, PickupAddressTooShort)
    + Check(|d.dropoffAddress| >= 3, DropoffAddressTooShort)
  }

  /** The shipment refinements before the parcel list. */
  function ShipmentHeadIssues(d: CreateInput): (r: seq<Issue>)
    ensures forall x :: x in r ==> x == WeightNotPositive || x == CodAmountNotPositive
    ensures WeightNotPositive in r <==> !PositiveOrAbsent(d.weightKg)
    ensures CodAmountNotPositive in r <==> !PositiveOrAbsent(d.codAmount)
  {
    Check(PositiveOrAbsent(d.weightKg), WeightNotPositive)
    + Check(PositiveOrAbsent(d.codAmount), CodAmountNotPositive)
  }

  /** The shipment refinements after the parcel list. */
  function ShipmentTailIssues(d: CreateInput): (r: seq<Issue>)
    ensures forall x :: x in r ==> x == PieceTotalNotPositive || x == ItemValueNegative
    ensures PieceTotalNotPositive in r <==> d.pieceTotal.Some? && d.pieceTotal.value <= 0
    ensures ItemValueNegative in r <==> d.itemValue.Some? && d.itemValue.value < 0.0
  {
    Check(d.pieceTotal.None? || d.pieceTotal.value > 0, PieceTotalNotPositive)
    + Check(d.itemValue.None? || d.itemValue.value >= 0.0, ItemValueNegative)
  }

  /** The refinements of the `shipment` group, in schema order. */
  function ShipmentIssues(d: CreateInput): (r: seq<Issue>)
    ensures forall x :: x in r ==>
              x == WeightNotPositive || x == CodAmountNotPositive || x.ParcelDimensionNotPositive?
              || x == PieceTotalNotPositive || x == ItemValueNegative
  {
    ShipmentHeadIssues(d) + (if d.parcels.Some? then ParcelIssues(d.parcels.value) else []) + ShipmentTailIssues(d)
  }

  /** Each scalar shipment refinement is reported exactly when its field is out of range. */
  lemma ShipmentScalarIssuesExact(d: CreateInput)
    ensures WeightNotPositive in ShipmentIssues(d) <==> !PositiveOrAbsent(d.weightKg)
    ensures CodAmountNotPositive in ShipmentIssues(d) <==> !PositiveOrAbsent(d.codAmount)
    ensures PieceTotalNotPositive in ShipmentIssues(d) <==> d.pieceTotal.Some? && d.pieceTotal.value <= 0
    ensures ItemValueNegative in ShipmentIssues(d) <==> d.itemValue.Some? && d.itemValue.value < 0.0
  {
  }

  /** A parcel dimension is reported exactly when that dimension of that parcel is not positive. */
  lemma ShipmentParcelIssuesExact(d: CreateInput)
    ensures forall i: nat, dim :: ParcelDimensionNotPositive(i, dim) in ShipmentIssues(d) <==>
              d.parcels.Some? && i < |d.parcels.value| && !PositiveOrAbsent(DimensionOf(d.parcels.value[i], dim))
  {
  }

  /** The enumerations of the `payment` group, in schema order. */
  function PaymentIssues(d: CreateInput): (r: seq<Issue>)
    ensures forall x :: x in r ==>
              x == PaymentTypeInvalid || x == DeliveryChargePaidByInvalid || x == CodPaidStatusInvalid
              || x == ServiceChargePaidStatusInvalid || x == IfRecipientNotAvailableInvalid
    ensures PaymentTypeInvalid in r <==> !InEnum(d.paymentType, PaymentTypes)
    ensures DeliveryChargePaidByInvalid in r <==> !InEnum(d.deliveryChargePaidBy, PaidByValues)
    ensures CodPaidStatusInvalid in r <==> !InEnum(d.codPaidStatus, PaidStatuses)
    ensures ServiceChargePaidStatusInvalid in r <==> !InEnum(d.serviceChargePaidStatus, PaidStatuses)
    ensures IfRecipientNotAvailableInvalid in r <==> !InEnum(d.ifRecipientNotAvailable, RecipientActions)
    ensures r == [] <==> && InEnum(d.paymentType, PaymentTypes) && InEnum(d.deliveryChargePaidBy, PaidByValues)
                         && InEnum(d.codPaidStatus, PaidStatuses) && InEnum(d.serviceChargePaidStatus, PaidStatuses)
                         && InEnum(d.ifRecipientNotAvailable, RecipientActions)
  {
    Check(InEnum(d.paymentType, PaymentTypes), PaymentTypeInvalid)
    + Check(InEnum(d.deliveryChargePaidBy, PaidByValues), DeliveryChargePaidByInvalid)
    + Check(InEnum(d.codPaidStatus, PaidStatuses), CodPaidStatusInvalid)
    + Check(InEnum(d.serviceChargePaidStatus, PaidStatuses), ServiceChargePaidStatusInvalid)
    + Check(InEnum(d.ifRecipientNotAvailable, RecipientActions), IfRecipientNotAvailableInvalid)
  }

  /** The datetime refinements of the `schedule` group, in schema order. */
  function ScheduleIssues(d: CreateInput, isDateTime: string -> bool): (r: seq<Issue>)
    ensures forall x :: x in r ==> x == PlannedPickupAtNotIso || x == PlannedDeliveryAtNotIso || x == PromiseDateNotIso
    ensures PlannedPickupAtNotIso in r <==> !DateOrAbsent(d.plannedPickupAt, isDateTime)
    ensures PlannedDeliveryAtNotIso in r <==> !DateOrAbsent(d.plannedDeliveryAt, isDateTime)
    ensures PromiseDateNotIso in r <==> !DateOrAbsent(d.promiseDate, isDateTime)
    ensures r == [] <==> && DateOrAbsent(d.plannedPickupAt, isDateTime) && DateOrAbsent(d.plannedDeliveryAt, isDateTime)
                         && DateOrAbsent(d.promiseDate, isDateTime)
  {
    Check(DateOrAbsent(d.plannedPickupAt, isDateTime), PlannedPickupAtNotIso)
    + Check(DateOrAbsent(d.plannedDeliveryAt, isDateTime), PlannedDeliveryAtNotIso)
    + Check(DateOrAbsent(d.promiseDate, isDateTime), PromiseDateNotIso)
  }

  /** The field-level refinements, in schema order. */
  function FieldIssues(d: CreateInput, isUuid: string -> bool, isDateTime: string -> bool): seq<Issue>
  {
    IdIssues(d, isUuid) + AddressTypeIssues(d) + LineIssues(d) + ShipmentIssues(d)
    + PaymentIssues(d) + ScheduleIssues(d, isDateTime)
    + Check(PositiveOrAbsent(d.amount), AmountNotPositive)
  }

  /** Everything the schema reports; the request parses iff this is empty.
      `isUuid` and `isDateTime` are the schema library's UUID and ISO
      datetime format tests. */
  function SchemaIssues(d: CreateInput, isUuid: string -> bool, isDateTime: string -> bool): seq<Issue>
  {
    FieldIssues(d, isUuid, isDateTime) + CodIssues(d)
  }

  /** A request the schema accepts. */
  predicate Parses(d: CreateInput, isUuid: string -> bool, isDateTime: string -> bool)
  {
    && (d.senderAddressId.None? || isUuid(d.senderAddressId.value))
    && (d.receiverAddressId.None? || isUuid(d.receiverAddressId.value))
    && InEnum(d.senderAddressType, AddressTypes) && InEnum(d.receiverAddressType, AddressTypes)
    && |d.pickupAddress| >= 3 && |d.dropoffAddress| >= 3
    && PositiveOrAbsent(d.weightKg) && PositiveOrAbsent(d.codAmount)
    && (d.parcels.Some? ==> forall i, dim :: 0 <= i < |d.parcels.value| ==> PositiveOrAbsent(DimensionOf(d.parcels.value[i], dim)))
    && (d.pieceTotal.None? || d.pieceTotal.value > 0)
    && (d.itemValue.None? || d.itemValue.value >= 0.0)
    && InEnum(d.paymentType, PaymentTypes) && InEnum(d.deliveryChargePaidBy, PaidByValues)
    && InEnum(d.codPaidStatus, PaidStatuses) && InEnum(d.serviceChargePaidStatus, PaidStatuses)
    && InEnum(d.ifRecipientNotAvailable, RecipientActions)
    && DateOrAbsent(d.plannedPickupAt, isDateTime) && DateOrAbsent(d.plannedDeliveryAt, isDateTime)
    && DateOrAbsent(d.promiseDate, isDateTime)
    && PositiveOrAbsent(d.amount)
    && (CodOn(d) ==> AmountPositive(d.codAmount))
    && (CodOn(d) ==> CurrencyValid(d.currency))
  }

  /** The parcel refinements report nothing exactly when every present
      dimension of every parcel is positive. */
  lemma ParcelIssuesEmptyIff(ps: seq<ParcelInput>)
    ensures ParcelIssues(ps) == [] <==> forall i, dim :: 0 <= i < |ps| ==> PositiveOrAbsent(DimensionOf(ps[i], dim))
  {
    var pi := ParcelIssues(ps);
    if pi != [] {
      var x := pi[0];
      assert x in pi;
      assert !PositiveOrAbsent(DimensionOf(ps[x.index], x.dimension));
    }
    if !forall i, dim :: 0 <= i < |ps| ==> PositiveOrAbsent(DimensionOf(ps[i], dim)) {
      var i, dim :| 0 <= i < |ps| && !PositiveOrAbsent(DimensionOf(ps[i], dim));
      assert ParcelDimensionNotPositive(i, dim) in pi;
    }
  }

  /** The COD refinement reports nothing exactly when COD is off or both
      the amount and the currency are valid. */
  lemma CodIssuesEmptyIff(d: CreateInput)
    ensures CodIssues(d) == [] <==>
              (CodOn(d) ==> AmountPositive(d.codAmount) && CurrencyValid(d.currency))
  {
    var cod := CodIssues(d);
    if cod != [] {
      assert cod[0] in cod;
    }
    if CodOn(d) && !AmountPositive(d.codAmount) {
      assert CodAmountRequired in cod;
    }
    if CodOn(d) && !CurrencyValid(d.currency) {
      assert CurrencyRequired in cod;
    }
  }

  /** The schema reports no issue exactly for the requests it accepts. */
  lemma SchemaIssuesIff(d: CreateInput, isUuid: string -> bool, isDateTime: string -> bool)
    ensures SchemaIssues(d, isUuid, isDateTime) == [] <==> Parses(d, isUuid, isDateTime)
  {
    if d.parcels.Some? {
      ParcelIssuesEmptyIff(d.parcels.value);
    }
    CodIssuesEmptyIff(d);
  }

  /** Every enumeration and date issue its group reports is among the
      schema's issues. */
  lemma GroupIssuesReported(d: CreateInput, isUuid: string -> bool, isDateTime: string -> bool)
    ensures forall x :: x in AddressTypeIssues(d) ==> x in SchemaIssues(d, isUuid, isDateTime)
    ensures forall x :: x in PaymentIssues(d) ==> x in SchemaIssues(d, isUuid, isDateTime)
    ensures forall x :: x in ScheduleIssues(d, isDateTime) ==> x in SchemaIssues(d, isUuid, isDateTime)
  {
  }

  // ---------- buildAddressText (mapper format) ----------

  /** The mapper's parts: addressLine1, addressLine2, building,
      "Floor "+floor, apartment, street, neighborhood, city, postalCode,
      country, "Landmark: "+landmark. */
  function AddressParts(f: AddressFields): seq<Option<string>>
  {
    [f.addressLine1, f.addressLine2, f.building,
     Prefixed("Floor ", f.floor),
     f.apartment, f.street, f.neighborhood, f.city, f.postalCode, f.country,
     Prefixed("Landmark: ", f.landmark)]
  }

  /** The non-empty parts joined with ", "; "" for a blank address. */
  function BuildAddressText(f: AddressFields): (r: string)
    ensures r == "" <==> Blank(f)
  {
    JoinedPartsEmptyIff(AddressParts(f));
    PartsBlank(f);
    Join(KeepTruthy(AddressParts(f)), ", ")
  }

  /** No part is truthy exactly for a blank address. */
  lemma PartsBlank(f: AddressFields)
    ensures (forall k :: 0 <= k < |AddressParts(f)| ==> !Truthy(AddressParts(f)[k])) <==> Blank(f)
  {
    var p := AddressParts(f);
    if forall k :: 0 <= k < |p| ==> !Truthy(p[k]) {
      assert !Truthy(p[0]) && !Truthy(p[1]) && !Truthy(p[2]) && !Truthy(p[3]) && !Truthy(p[4]) && !Truthy(p[5]);
      assert !Truthy(p[6]) && !Truthy(p[7]) && !Truthy(p[8]) && !Truthy(p[9]) && !Truthy(p[10]);
    }
  }

  /** With comma-free fields the line splits back into the present fields,
      in the mapper's order and with its prefixes. */
  lemma BuildAddressTextSplits(f: AddressFields)
    requires CommaFree(f)
    ensures SplitOnSeparator(BuildAddressText(f)) == KeepTruthy(AddressParts(f))
  {
    if Truthy(f.floor) { PrefixedNoComma("Floor ", f.floor.value); }
    if Truthy(f.landmark) { PrefixedNoComma("Landmark: ", f.landmark.value); }
    JoinedPartsSplit(AddressParts(f));
  }

  /** An address with only a building is formatted as the bare building. */
  lemma OnlyBuilding(building: string)
    requires building != ""
    ensures BuildAddressText(AddressFields(None, None, None, None, None, None, Some(building), None, None, None, None))
            == building
  {
    var f := AddressFields(None, None, None, None, None, None, Some(building), None, None, None, None);
    KeepTruthySingle(AddressParts(f), 2);
  }

  // ---------- mapCreateOrderDtoToRepoPayload ----------

  /** The mapped payload. `senderAddress`/`receiverAddress` are always null. */
  datatype MappedOrder = MappedOrder(
    pickupAddress: string,
    dropoffAddress: string,
    destinationCity: Option<string>,
    savePickup: bool,
    saveDropoff: bool,
    senderSnapshot: Option<AddressFields>,
    receiverSnapshot: Option<AddressFields>,
    senderName: Option<string>,
    senderPhone: Option<string>,
    receiverName: Option<string>,
    receiverPhone: Option<string>,
    senderAddress: Option<string>,
    receiverAddress: Option<string>,
    customerEntityId: Option<string>,
    senderAddressId: Option<AddressId>,
    receiverAddressId: Option<AddressId>,
    serviceType: Option<string>,
    weightKg: Option<real>,
    codAmount: Option<real>,
    currency: Option<string>,
    pieceTotal: Option<int>,
    parcels: Option<seq<ParcelInput>>,
    fragile: bool,
    dangerousGoods: bool,
    shipmentInsurance: bool,
    itemValue: Option<real>,
    amount: Option<real>)

  /** Why the mapper throws: a schema error (no HTTP status of its own) or
      an address-book id that does not resolve (status 400). */
  datatype MapError = Invalid(issues: seq<Issue>) | SenderAddressNotFound | ReceiverAddressNotFound

  /** `findFirst({ id, customerEntityId: owner ?? undefined })`: the owner
      filter applies only when the request names an owner. */
  function FindSender(book: map<AddressId, AddressRow>, id: AddressId, owner: Option<string>): Option<AddressRow>
  {
    if id in book && (owner.None? || book[id].customerEntityId == owner) then Some(book[id]) else None
  }

  /** `findUnique({ id })`. */
  function FindById(book: map<AddressId, AddressRow>, id: AddressId): Option<AddressRow>
  {
    if id in book then Some(book[id]) else None
  }

  /** `b ?? false` for an optional boolean. */
  function OrFalse(b: Option<bool>): (r: bool)
    ensures r <==> b == Some(true)
  {
    b.Some? && b.value
  }

  /** The returned object for resolved (or typed) address lines. */
  function Assemble(d: CreateInput, pickup: string, dropoff: string, city: Option<string>): MappedOrder
  {
    MappedOrder(
      pickup, dropoff, city,
      OrFalse(d.savePickup), OrFalse(d.saveDropoff),
      d.senderAddress, d.receiverAddress,
      d.senderName, d.senderPhone, d.receiverName, d.receiverPhone,
      None, None,
      d.customerEntityId, d.senderAddressId, d.receiverAddressId,
      d.serviceType, d.weightKg,
      if CodOn(d) then d.codAmount else None,
      if CodOn(d) then d.currency else None,
      d.pieceTotal, d.parcels,
      OrFalse(d.fragile), OrFalse(d.dangerousGoods), OrFalse(d.shipmentInsurance),
      d.itemValue, d.amount)
  }

  /** The pickup line: the resolved sender address, else the typed text. */
  function PickupLine(d: CreateInput, book: map<AddressId, AddressRow>): string
  {
    var s := if Truthy(d.senderAddressId) then FindSender(book, d.senderAddressId.value, d.customerEntityId) else None;
    if s.Some? then BuildAddressText(s.value.fields) else d.pickupAddress
  }

  /** The dropoff line: the resolved receiver address, else the typed text. */
  function DropoffLine(d: CreateInput, book: map<AddressId, AddressRow>): string
  {
    var r := if Truthy(d.receiverAddressId) then FindById(book, d.receiverAddressId.value) else None;
    if r.Some? then BuildAddressText(r.value.fields) else d.dropoffAddress
  }

  /** `receiverAddr?.city ?? destinationCity`. */
  function DestinationCity(d: CreateInput, book: map<AddressId, AddressRow>): Option<string>
  {
    var r := if Truthy(d.receiverAddressId) then FindById(book, d.receiverAddressId.value) else None;
    Coalesce(if r.Some? then r.value.fields.city else None, d.destinationCity)
  }

  /** The part of `mapCreateOrderDtoToRepoPayload` after the schema: the
      address-book lookups, their 400 errors, and the returned object. */
  function ResolveAddresses(d: CreateInput, book: map<AddressId, AddressRow>): (r: Result<MappedOrder, MapError>)
    ensures r.Err? ==> !r.error.Invalid?
    ensures r == Err(SenderAddressNotFound)
            <==> Truthy(d.senderAddressId) && FindSender(book, d.senderAddressId.value, d.customerEntityId).None?
    ensures r != Err(SenderAddressNotFound) ==>
              (r == Err(ReceiverAddressNotFound)
               <==> Truthy(d.receiverAddressId) && d.receiverAddressId.value !in book)
    ensures r.Ok? ==> (Truthy(d.senderAddressId) ==>
                         d.senderAddressId.value in book
                         && (d.customerEntityId.Some? ==> book[d.senderAddressId.value].customerEntityId == d.customerEntityId)
                         && r.value.pickupAddress == BuildAddressText(book[d.senderAddressId.value].fields))
    ensures r.Ok? ==> (!Truthy(d.senderAddressId) ==> r.value.pickupAddress == d.pickupAddress)
    ensures r.Ok? ==> (Truthy(d.receiverAddressId) ==>
                         d.receiverAddressId.value in book
                         && r.value.dropoffAddress == BuildAddressText(book[d.receiverAddressId.value].fields))
    ensures r.Ok? ==> (!Truthy(d.receiverAddressId) ==> r.value.dropoffAddress == d.dropoffAddress)
    ensures r.Ok? ==> r.value.destinationCity
                      == if Truthy(d.receiverAddressId) && book[d.receiverAddressId.value].fields.city.Some?
                         then book[d.receiverAddressId.value].fields.city else d.destinationCity
    ensures r.Ok? ==> r.value.senderAddressId == d.senderAddressId && r.value.receiverAddressId == d.receiverAddressId
    ensures r.Ok? ==> r.value.senderAddress.None? && r.value.receiverAddress.None?
    ensures r.Ok? ==> (r.value.savePickup <==> d.savePickup == Some(true))
                      && (r.value.saveDropoff <==> d.saveDropoff == Some(true))
                      && (r.value.fragile <==> d.fragile == Some(true))
                      && (r.value.dangerousGoods <==> d.dangerousGoods == Some(true))
                      && (r.value.shipmentInsurance <==> d.shipmentInsurance == Some(true))
    ensures r.Ok? && !CodOn(d) ==> r.value.codAmount.None? && r.value.currency.None?
    ensures r.Ok? && CodOn(d) ==> r.value.codAmount == d.codAmount && r.value.currency == d.currency
  {
    if Truthy(d.senderAddressId) && FindSender(book, d.senderAddressId.value, d.customerEntityId).None? then
      Err(SenderAddressNotFound)
    else if Truthy(d.receiverAddressId) && FindById(book, d.receiverAddressId.value).None? then
      Err(ReceiverAddressNotFound)
    else
      Ok(Assemble(d, PickupLine(d, book), DropoffLine(d, book), DestinationCity(d, book)))
  }

  /** `mapCreateOrderDtoToRepoPayload` over the address book `book`: the
      schema first, then the lookups. */
  function MapCreateOrder(d: CreateInput, book: map<AddressId, AddressRow>, isUuid: string -> bool, isDateTime: string -> bool)
    : (r: Result<MappedOrder, MapError>)
    ensures r.Err? && r.error.Invalid? <==> SchemaIssues(d, isUuid, isDateTime) != []
    ensures r.Err? && r.error.Invalid? ==> r.error.issues == SchemaIssues(d, isUuid, isDateTime)
    ensures SchemaIssues(d, isUuid, isDateTime) == [] ==> r == ResolveAddresses(d, book)
    ensures r.Ok? ==> Parses(d, isUuid, isDateTime)
    ensures r.Ok? && CodOn(d) ==>
              && r.value.codAmount == d.codAmount && r.value.currency == d.currency
              && AmountPositive(r.value.codAmount)
              && CurrencyValid(r.value.currency)
  {
    var issues := SchemaIssues(d, isUuid, isDateTime);
    SchemaIssuesIff(d, isUuid, isDateTime);
    if issues != [] then Err(Invalid(issues)) else ResolveAddresses(d, book)
  }

  /** A structured sender address whose `addressType` is not one of the
      enumeration's values (such as "HOME") fails the schema, so the mapper
      throws a schema error and returns no payload. */
  lemma UnknownAddressTypeRefused(d: CreateInput, book: map<AddressId, AddressRow>, isUuid: string -> bool, isDateTime: string -> bool)
    requires d.senderAddressType == Some("HOME")
    ensures MapCreateOrder(d, book, isUuid, isDateTime).Err?
    ensures MapCreateOrder(d, book, isUuid, isDateTime).error.Invalid?
    ensures SenderAddressTypeInvalid in MapCreateOrder(d, book, isUuid, isDateTime).error.issues
  {
    assert |"HOME"| == 4 && |"RESIDENTIAL"| == 11 && |"BUSINESS"| == 8;
    assert !InEnum(d.senderAddressType, AddressTypes);
    assert SenderAddressTypeInvalid in AddressTypeIssues(d);
    GroupIssuesReported(d, isUuid, isDateTime);
    assert SenderAddressTypeInvalid in SchemaIssues(d, isUuid, isDateTime);
  }

  /** Without address-book ids the typed lines are kept, and the schema
      guarantees they have at least three characters. */
  lemma TypedLinesKept(d: CreateInput, book: map<AddressId, AddressRow>, isUuid: string -> bool, isDateTime: string -> bool)
    requires MapCreateOrder(d, book, isUuid, isDateTime).Ok?
    requires !Truthy(d.senderAddressId) && !Truthy(d.receiverAddressId)
    ensures |MapCreateOrder(d, book, isUuid, isDateTime).value.pickupAddress| >= 3
    ensures |MapCreateOrder(d, book, isUuid, isDateTime).value.dropoffAddress| >= 3
    ensures MapCreateOrder(d, book, isUuid, isDateTime).value.destinationCity == d.destinationCity
  {
  }

  /** The address book only matters through the ids the request names:
      without ids the mapping does not depend on it. */
  lemma BookIrrelevantWithoutIds(d: CreateInput, b1: map<AddressId, AddressRow>, b2: map<AddressId, AddressRow>, isUuid: string -> bool, isDateTime: string -> bool)
    requires !Truthy(d.senderAddressId) && !Truthy(d.receiverAddressId)
    ensures MapCreateOrder(d, b1, isUuid, isDateTime) == MapCreateOrder(d, b2, isUuid, isDateTime)
  {
  }
}
