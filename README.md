# Order workflow of a parcel-delivery backend, in Dafny

This project models the core of a courier backend. Its centre is the **order status workflow**, a state machine gated by role. It has:

- a table of the actions each role may perform;
- a map from each action to the status it produces;
- a transition graph;
- batch validation in a fixed order of checks;
- two atomic commits. `updateOrderStatusMany` changes order fields and logs one tracking event per order. `assignOrdersToDriver` sets the driver and status `assigned`.

Around the workflow sit the smaller rules that feed it or read its data:

- the guard chain of a warehouse parcel scan;
- the parcel plan and pagination of the order repository;
- the order-number counter and its format;
- the create-order schema and the cash-on-delivery (COD) gate;
- the two one-line address formats;
- the guards of the order controller's `create` and bulk endpoints;
- the read rules for orders, shipping labels and invoices.

State that the source changes in place lives in one object, `Store.Database`. It holds the order rows, the append-only tracking log, the user roles, the address book and the order-number counter. Its invariant `Valid()` says that every order's status equals the status of its latest status-carrying event. Each state-changing operation is a method proved against a pure specification function: `Workflow.Validate`, `Workflow.CommitOrders`, `Workflow.ValidateAssignment`, `OrderController.SaveAddresses` and so on. Lemmas about those functions state what the source promises.

Modules, one per source file (plus three shared ones):

| module | file | models |
|---|---|---|
| `Common` | common.dfy | `Option`/`Result`, JavaScript `??` and string truthiness, `filter` |
| `Text` | text.dfy | `trim`, `filter(Boolean)` + `join(", ")` and its inverse split, `String(n)`, `padStart`, ASCII case |
| `Store` | store.dfy | the data model and the `Database` class |
| `Workflow` | workflow.dfy | src/services/orders/orderWorkFlow.ts |
| `OrderNumber` | ordernumber.dfy | src/utils/orderNumber.ts |
| `OrderRepo` | order_repo.dfy | src/services/orders/orderRepo.prisma.ts |
| `CreateMapper` | create_mapper.dfy | src/services/orders/orderCreate.mapper.ts |
| `OrderController` | order_controller.dfy | src/services/orders/orderController.ts |
| `WarehouseScan` | warehouse_scan.dfy | src/services/warehouse/warehouseController.ts |
| `LabelAccess` | label_access.dfy | src/features/label/labelController.ts |
| `InvoiceAccess` | invoice_access.dfy | src/services/invoice/invoiceController.ts |

Inputs that come from I/O are parameters:

- the clock (`now`);
- the ids the database generates for new rows (`newId`, `newOrderId`, `pickupId`, `dropoffId`); the database mints them fresh, so `Create` and `SaveToAddressBook` require the two address ids to be distinct and absent from the address book;
- the parcel table a scan code is looked up in (`parcels`);
- the schema library's UUID and ISO datetime tests (`isUuid`, `isDateTime`);
- JavaScript's `Number(...)` on a string (`toNumber`);
- the `PAYMENTS_ENABLED` flag (`paymentsEnabled`).

Replies over HTTP are modelled by their status code and the record they carry.

Behaviour of the workflow code worth noting:

- Only ARRIVED_AT_WAREHOUSE, SORTED and DISPATCHED need a warehouse id. ON_HOLD does not.
- The checks stop at the first failing rule. Only the rules that list orders (missing, final, not assigned, other warehouse, illegal edge, not assignable) name every offending order.
- The assignment sub-workflow rejects an unknown driver or a missing order with 400, not 404.
- A batch that names an existing order twice fails with 404 and an empty list of missing ids. The row count of the load is compared with the length of the id list (`Workflow.DuplicateIdsRejected`).

## Model

| member | source | states |
|---|---|---|
| Common.Coalesce | src/services/orders/orderWorkFlow.ts:336 | `a ?? b` is `a` when present, otherwise `b` |
| Common.Filter | src/services/orders/orderWorkFlow.ts:275 | `filter` is no longer than its input, keeps exactly the elements that satisfy the predicate, and is empty iff none does |
| Common.FilterMultiset | src/services/orders/orderWorkFlow.ts:275 | `filter` keeps every satisfying element as often as it occurs and drops every other one, so it is the input's sub-multiset of satisfying elements |
| Common.FilterSnoc | src/services/orders/orderWorkFlow.ts:275 | filtering a list with one more element appends that element exactly when it satisfies the predicate |
| Common.FilterAppend | src/services/orders/orderWorkFlow.ts:275 | `filter` distributes over concatenation, so it keeps the input's order |
| Text.TrimStart | src/services/orders/orderController.ts:48 | the result is a suffix, everything removed is whitespace, and it does not start with whitespace |
| Text.TrimEnd | src/services/orders/orderController.ts:48 | the result is a prefix, everything removed is whitespace, and it does not end with whitespace |
| Text.Trim | src/services/orders/orderRepo.prisma.ts:168 | `trim()` is no longer than its input and neither starts nor ends with whitespace |
| Text.TrimSlice | src/services/orders/orderRepo.prisma.ts:168 | `trim()` is a contiguous slice of its input, and everything before and after that slice is whitespace |
| Text.TrimEmptyIff | src/services/orders/orderRepo.prisma.ts:168-180 | a search term trims to "" exactly when it is all whitespace |
| Text.TrimIdempotent | src/services/orders/orderController.ts:48 | trimming twice is trimming once |
| Text.KeepTruthy | src/services/orders/orderController.ts:37 | `filter(Boolean)` never keeps an empty string, keeps a string exactly when it is a present non-empty part, and is empty iff no part is truthy |
| Text.KeepTruthyAppend | src/services/orders/orderController.ts:37 | `filter(Boolean)` distributes over concatenation of the part lists, so the kept parts stay in order |
| Text.KeepTruthyMultiset | src/services/orders/orderController.ts:37 | each non-empty string is kept as often as it occurs as a present part, and the empty string never is |
| Text.KeepTruthySingle | src/services/orders/orderController.ts:37 | when exactly one part is truthy, `filter(Boolean)` keeps just that part |
| Text.SplitJoin | src/services/orders/orderController.ts:39 | ", "-joining non-empty comma-free parts can be split back into the same parts |
| Text.JoinEmptyIff | src/services/orders/orderController.ts:39 | joining non-empty parts gives "" exactly when there are none |
| Text.JoinedPartsEmptyIff | src/services/orders/orderController.ts:25-39 | a formatted line is "" exactly when no optional part is truthy |
| Text.JoinedPartsSplit | src/services/orders/orderController.ts:25-39 | with comma-free parts the formatted line splits back into the kept parts |
| Text.PrefixedNoComma | src/services/orders/orderController.ts:29-36 | a comma-free prefix before a comma-free value stays comma-free |
| Text.DecimalStringValue | src/utils/orderNumber.ts:12 | `String(n)` is a non-empty digit string denoting `n`, with a leading zero only for 0 |
| Text.DecimalStringLength | src/utils/orderNumber.ts:12 | `String(n)` has at most `k` digits iff `n < 10^k` |
| Text.DecimalStringInjective | src/utils/orderNumber.ts:12 | distinct numbers have distinct decimal strings |
| Text.IntString | src/services/orders/orderRepo.prisma.ts:74 | `String(i)` is the decimal string for `i >= 0`; for negative `i` it is '-' followed by the decimal string of `-i` |
| Text.AsciiLower | src/services/orders/orderRepo.prisma.ts:176 | an upper-case ASCII letter maps to the lower-case letter 32 code points above it, and every other character is left alone |
| Text.AsciiLowerString | src/services/orders/orderRepo.prisma.ts:176 | lower-cases every ASCII letter and leaves all other characters |
| Text.PadStart | src/utils/orderNumber.ts:12 | `padStart` reaches the width, ends with the input and fills only with the pad character |
| Text.LeadingZerosValue | src/utils/orderNumber.ts:12 | leading zeros do not change the value of a digit string |
| Workflow.Successors | src/services/orders/orderWorkFlow.ts:122-177 | the adjacency table matches the transition predicate, and a status has no successor exactly when it is final (delivered, returned, cancelled) |
| Workflow.FoundCount | src/services/orders/orderWorkFlow.ts:264-274 | the loaded row count equals the number of requested ids iff the ids are distinct and all resolve |
| Workflow.MissingIds | src/services/orders/orderWorkFlow.ts:275 | the 404 list holds exactly the requested ids that resolve to no order |
| Workflow.FinalOnes | src/services/orders/orderWorkFlow.ts:280 | exactly the snapshots in a final status, empty iff none is final |
| Workflow.NotAssignedTo | src/services/orders/orderWorkFlow.ts:290 | exactly the snapshots not assigned to the driver, empty iff all are |
| Workflow.OutsideWarehouseOnes | src/services/orders/orderWorkFlow.ts:301-303 | exactly the snapshots whose set warehouse differs, empty iff none does |
| Workflow.NotAssignableOnes | src/services/orders/orderWorkFlow.ts:461 | exactly the snapshots that are neither pending nor exception |
| Workflow.IllegalEdges | src/services/orders/orderWorkFlow.ts:323-333 | names every order whose edge to the new status is illegal, not just the first, and is empty iff all edges are legal |
| Workflow.Validate | src/services/orders/orderWorkFlow.ts:254-341 | the role, empty-list and reason gates decide before any order is read, and the empty-list error arises exactly for an empty list; a customer can perform no action; a 404 lists exactly the missing ids; DRIVER_ASSIGNED never passes; an approved plan carries the action's status and the coalesced warehouse, and a warehouse action always has one |
| Workflow.CheckLoaded | src/services/orders/orderWorkFlow.ts:279-341 | the checks on loaded rows never report missing ids and never pass DRIVER_ASSIGNED; an approved plan carries the action's status, the coalesced warehouse and the tracking warehouse, and a warehouse action always has a warehouse |
| Workflow.ScopeCheckNoneIff | src/services/orders/orderWorkFlow.ts:279-310 | the scope checks pass exactly when no order is final, a driver holds every order, and a warehouse user's orders are in no warehouse or its own |
| Workflow.ValidateOkIff | src/services/orders/orderWorkFlow.ts:254-341 | a batch is approved exactly when it is admissible: non-empty, role allowed, reason given when required, distinct ids that all resolve, no final order, driver and warehouse scope respected, every transition legal, not DRIVER_ASSIGNED, and a warehouse known for a warehouse action |
| Workflow.MissingOrdersReported | src/services/orders/orderWorkFlow.ts:274-277 | any unresolved id fails the batch with the 404 error `OrdersNotFound`, whose list holds exactly the unresolved ids and so names it |
| Workflow.DuplicateIdsRejected | src/services/orders/orderWorkFlow.ts:274-277 | a batch naming an existing order twice fails with 404 and an empty missing list |
| Workflow.FinalOrdersReported | src/services/orders/orderWorkFlow.ts:279-286 | one final order blocks the whole batch, and the error names exactly the final orders with their statuses |
| Workflow.FinalRowRejected | src/services/orders/orderWorkFlow.ts:279-286 | one loaded row in a final status makes the loaded-row checks answer with the listing of all final rows |
| Workflow.FinalListingIds | src/services/orders/orderWorkFlow.ts:280-285 | the listing of a loaded batch names, with its status, exactly each requested order that is final, and nothing outside the batch |
| Workflow.ListedIds | src/services/orders/orderWorkFlow.ts:280-310 | a sub-listing of a loaded batch names a requested id exactly when its order is in the listing, and names only requested ids |
| Workflow.ScopeRefusalStatus | src/services/orders/orderWorkFlow.ts:288-310 | the driver-scope and warehouse-scope errors map to HTTP 403 |
| Workflow.DriverRowRejected | src/services/orders/orderWorkFlow.ts:288-297 | for a driver, loaded rows none of which is final and one of which the driver does not hold fail the loaded-row checks with `DriverNotAssigned` over all such rows |
| Workflow.DriverBatchRejected | src/services/orders/orderWorkFlow.ts:288-297 | a driver's batch of distinct known ids that clears the gates, has no final order and holds one not assigned to the driver fails validation with `DriverNotAssigned` over the rows not assigned to them |
| Workflow.NotAssignedListingIds | src/services/orders/orderWorkFlow.ts:289-296 | the driver listing names a requested id exactly when its order is not assigned to that driver, and names only requested ids |
| Workflow.DriverNotAssignedReported | src/services/orders/orderWorkFlow.ts:288-297 | a driver's batch that clears the earlier checks but holds an order not assigned to that driver is refused with 403, listing exactly the requested orders not assigned to them |
| Workflow.WarehouseRowRejected | src/services/orders/orderWorkFlow.ts:299-310 | for a warehouse user with a warehouse, loaded rows none of which is final and one of which is set in another warehouse fail the loaded-row checks with `NotInWarehouse` over all such rows |
| Workflow.WarehouseBatchRejected | src/services/orders/orderWorkFlow.ts:299-310 | a warehouse user's batch of distinct known ids that clears the gates, has no final order and holds one in another warehouse fails validation with `NotInWarehouse` over the rows placed elsewhere |
| Workflow.OutsideListingIds | src/services/orders/orderWorkFlow.ts:300-309 | the warehouse listing names a requested id exactly when its order is set in another warehouse, and names only requested ids |
| Workflow.OutsideWarehouseReported | src/services/orders/orderWorkFlow.ts:299-310 | a warehouse user's batch that clears the earlier checks but holds an order in another warehouse is refused with 403, listing exactly the requested orders placed elsewhere |
| Workflow.FinalListing | src/services/orders/orderWorkFlow.ts:280-285 | the final-order listing names exactly the final snapshots with their statuses |
| Workflow.FinalOrdersFrozen | src/services/orders/orderWorkFlow.ts:279-286 | an approved batch leaves every order in a final status unchanged |
| Workflow.DriverScope | src/services/orders/orderWorkFlow.ts:288-297 | a driver's batch passes only when the driver is assigned to every order |
| Workflow.WarehouseScope | src/services/orders/orderWorkFlow.ts:299-310 | a warehouse user with a warehouse passes only for orders with no warehouse or its own |
| Workflow.InformationalActionsSkipGraph | src/services/orders/orderWorkFlow.ts:109-116 | actions with no resulting status pass exactly when the gates and scope checks pass, whatever the current statuses |
| Workflow.IllegalEdgesReported | src/services/orders/orderWorkFlow.ts:323-334 | once the earlier checks pass, the transition error names exactly the orders with an illegal edge |
| Workflow.BatchEvents | src/services/orders/orderWorkFlow.ts:383-395 | exactly one tracking row per requested id, in request order |
| Workflow.CommitKeepsProjection | src/services/orders/orderWorkFlow.ts:377-397 | after the commit every order's status still equals its latest logged status |
| Workflow.CommitFrame | src/services/orders/orderWorkFlow.ts:350-381 | only requested orders change, only the six update fields change, status changes only to the plan's status, and attempt counters rise by exactly one for attempt actions |
| Workflow.BuildUpdateData | src/services/orders/orderWorkFlow.ts:350-375 | building the update object key by key gives an object that turns any row into the specified updated row |
| Workflow.ApplyManyIsCommit | src/services/orders/orderWorkFlow.ts:377-381 | `updateMany` with a data object that updates every row as specified is the specified commit of the batch |
| Workflow.CommitBatch | src/services/orders/orderWorkFlow.ts:377-397 | the transaction updates exactly the batch and appends its events; the returned rows are the updated ones |
| Workflow.CheckBatch | src/services/orders/orderWorkFlow.ts:254-341 | the checks as the source runs them, including the loop that collects illegal edges, give exactly `Validate` |
| Workflow.CollectIllegalEdges | src/services/orders/orderWorkFlow.ts:323-334 | the loop over the loaded rows collects exactly the illegal edges, in the order of the loaded rows (request order in the model) |
| Workflow.UpdateOrderStatusMany | src/services/orders/orderWorkFlow.ts:242-414 | the error of the first failing rule with orders and log unchanged, or exactly the requested orders updated and one event appended per id |
| Workflow.CommitSingle | src/services/orders/orderWorkFlow.ts:416-431 | a one-element batch changes exactly that order |
| Workflow.UpdateOrderStatus | src/services/orders/orderWorkFlow.ts:416-431 | the bulk form on `[orderId]`: that order updated and one event appended, or the store unchanged |
| Workflow.ValidateAssignment | src/services/orders/orderWorkFlow.ts:442-469 | an empty list is refused first, then a target that is not a driver. With a driver target, a repeated or unknown id is refused with `SomeOrdersNotFound`. A state refusal lists exactly the requested orders that are not assignable. No other refusal exists |
| Workflow.AssignableCheck | src/services/orders/orderWorkFlow.ts:461-468 | the state check passes exactly when every loaded row is pending or exception; otherwise each loaded row is listed, with its status, exactly when it is neither |
| Workflow.AssignmentRefusalStatus | src/services/orders/orderWorkFlow.ts:442-469 | every refusal of an assignment, a missing order included, is answered with 400 |
| Workflow.AssignmentErrorStatus | src/services/orders/orderWorkFlow.ts:442-469 | each of the four assignment errors maps to HTTP 400 |
| Workflow.AssignEvents | src/services/orders/orderWorkFlow.ts:477-490 | one DRIVER_ASSIGNED row per id, in request order |
| Workflow.AssignKeepsProjection | src/services/orders/orderWorkFlow.ts:471-491 | assignment keeps every order's status equal to its latest logged status |
| Workflow.AssignmentOkIff | src/services/orders/orderWorkFlow.ts:442-469 | assignment is accepted exactly for a non-empty list of distinct resolving ids, all pending or exception, and a target whose role is driver |
| Workflow.AssignBypassesGraph | src/services/orders/orderWorkFlow.ts:461-474 | assignment moves an order in exception to `assigned`, an edge the transition graph lacks |
| Workflow.CommitAssignmentTx | src/services/orders/orderWorkFlow.ts:471-491 | the assignment transaction sets driver and status `assigned` on exactly the listed orders, appends one DRIVER_ASSIGNED event per id and returns the updated rows |
| Workflow.AssignOrdersToDriver | src/services/orders/orderWorkFlow.ts:435-508 | the first failing check's error with the store unchanged, or every requested order assigned with status `assigned` and one event per id |
| OrderNumber.NextCounter | src/utils/orderNumber.ts:5-9 | the counter is 1 when the row is absent, else one more than before |
| OrderNumber.FormatOrderNumber | src/utils/orderNumber.ts:12-13 | the number starts with "99" and has at least twelve characters |
| OrderNumber.PaddedValue | src/utils/orderNumber.ts:12 | zero-padding the counter's decimal string to ten places keeps a digit string denoting the same value |
| OrderNumber.FormatValue | src/utils/orderNumber.ts:12-13 | the number is all digits, and the digits after "99" denote the counter value |
| OrderNumber.FormatShape | src/utils/orderNumber.ts:12-13 | below 10^10 the number is exactly twelve digits |
| OrderNumber.FormatOverflow | src/utils/orderNumber.ts:12-13 | from 10^10 on the number is longer than twelve characters |
| OrderNumber.FormatInjective | src/utils/orderNumber.ts:12-13 | distinct counter values give distinct order numbers |
| OrderNumber.GetNextOrderNumber | src/utils/orderNumber.ts:3-14 | upserts the counter and returns its formatted new value; nothing else changes |
| OrderNumber.SuccessiveNumbers | src/utils/orderNumber.ts:5-13 | two successive calls give distinct numbers whose values differ by exactly one |
| OrderRepo.PieceTotal | src/services/orders/orderRepo.prisma.ts:61-63 | an explicit total wins; without one it is at least 1 |
| OrderRepo.ParcelPlan | src/services/orders/orderRepo.prisma.ts:65-82 | one parcel per input parcel, or a single undimensioned one; pieces are numbered 1..n in input order; every code is `orderNumber-pieceNo/pieceTotal`; dimensions are carried over |
| OrderRepo.DefaultTotalCountsPieces | src/services/orders/orderRepo.prisma.ts:61-82 | without an explicit total every piece's total is the number of pieces made |
| OrderRepo.ParcelCodeInjective | src/services/orders/orderRepo.prisma.ts:74 | within one order a parcel code determines the piece number |
| OrderRepo.ParcelCodesDistinct | src/services/orders/orderRepo.prisma.ts:65-82 | the pieces of one order carry pairwise distinct codes |
| OrderRepo.ParcelCodesAcrossOrders | src/services/orders/orderRepo.prisma.ts:59-74 | parcels of orders with different counter values below 10^10 never share a code |
| OrderRepo.NewOrder | src/services/orders/orderRepo.prisma.ts:84-108 | the new row is pending, unassigned, in no warehouse, with zero attempts and its parcel plan |
| OrderRepo.CreationEvent | src/services/orders/orderRepo.prisma.ts:110-120 | the single creation event is `created` with status pending |
| OrderRepo.CreateOrder | src/services/orders/orderRepo.prisma.ts:54-136 | draws the next order number, inserts the new row and logs exactly one creation event |
| OrderRepo.Window | src/services/orders/orderRepo.prisma.ts:169-171 | limit defaults to 120, and any limit above 200 becomes exactly 200; page defaults to 1, and `skip = (page - 1) * limit` |
| OrderRepo.PageCount | src/services/orders/orderRepo.prisma.ts:247 | `ceil(total / limit)`: the smallest page count covering `total`, zero iff `total` is zero |
| OrderRepo.Returned | src/services/orders/orderRepo.prisma.ts:242-243 | a skip/take query returns at most `limit` rows, filling the page unless the rows run out |
| OrderRepo.HasMoreIffNotLastPage | src/services/orders/orderRepo.prisma.ts:247-255 | `hasMore` holds exactly when the page is before the last one |
| OrderRepo.HasMoreCore | src/services/orders/orderRepo.prisma.ts:247-255 | the same equivalence for explicit page and limit |
| OrderRepo.UuidCaseInsensitive | src/services/orders/orderRepo.prisma.ts:174-178 | the UUID pattern ignores letter case |
| OrderRepo.UuidIsTrimmed | src/services/orders/orderRepo.prisma.ts:168-178 | a term that passes the UUID test has no whitespace at either end |
| OrderRepo.TextClauses | src/services/orders/orderRepo.prisma.ts:185-209 | every text clause searches the trimmed term, and none is the exact-id clause |
| OrderRepo.BuildWhere | src/services/orders/orderRepo.prisma.ts:173-220 | a search exists iff the trimmed term is non-empty; the clause list is the exact-id clause (only for a UUID) followed by the seven text clauses on the trimmed term; customers are filtered to their own orders, drivers to their assigned ones, other roles not at all |
| CreateMapper.OptionalNumber | src/services/orders/orderCreate.mapper.ts:16-21 | "", null, undefined and NaN become undefined; numbers pass; other strings go through `Number` |
| CreateMapper.OptionalNumberIdempotent | src/services/orders/orderCreate.mapper.ts:16-21 | preprocessing its own output changes nothing |
| CreateMapper.OneParcelIssues | src/services/orders/orderCreate.mapper.ts:52-57 | one parcel gives one issue for exactly each of its dimensions that is present and not positive |
| CreateMapper.ParcelIssues | src/services/orders/orderCreate.mapper.ts:52-57 | one issue exactly for each parcel dimension that is present and not positive |
| CreateMapper.CodIssues | src/services/orders/orderCreate.mapper.ts:202-225 | no COD issue when COD is off; with COD on, an amount issue iff the amount is missing or not positive, and a currency issue iff the currency is missing or under two characters after trim |
| CreateMapper.ParcelIssuesEmptyIff | src/services/orders/orderCreate.mapper.ts:52-57 | the parcel refinements report nothing exactly when every present dimension of every parcel is positive |
| CreateMapper.CodIssuesEmptyIff | src/services/orders/orderCreate.mapper.ts:202-225 | the COD refinement reports nothing exactly when COD is off, or the amount is present and positive and the trimmed currency has at least two characters |
| CreateMapper.IdIssues | src/services/orders/orderCreate.mapper.ts:81-82 | each address-book id is refused exactly when it is present and not a UUID; nothing is reported exactly when both pass |
| CreateMapper.AddressTypeIssues | src/services/orders/orderCreate.mapper.ts:49 | each structured address's `addressType` is refused exactly when it is present and neither RESIDENTIAL nor BUSINESS |
| CreateMapper.LineIssues | src/services/orders/orderCreate.mapper.ts:89-90 | each of the pickup and dropoff lines is refused exactly when it is shorter than three characters; nothing is reported exactly when both pass |
| CreateMapper.ShipmentHeadIssues | src/services/orders/orderCreate.mapper.ts:101-112 | the weight and the COD amount are each refused exactly when present and not positive |
| CreateMapper.ShipmentTailIssues | src/services/orders/orderCreate.mapper.ts:118-131 | the piece total is refused exactly when present and not positive; the item value exactly when present and negative |
| CreateMapper.ShipmentIssues | src/services/orders/orderCreate.mapper.ts:98-131 | the shipment refinements report only weight, COD amount, parcel dimension, piece total and item value issues |
| CreateMapper.ShipmentScalarIssuesExact | src/services/orders/orderCreate.mapper.ts:101-131 | within the whole shipment group, the weight, COD amount, piece total and item value issues are each reported exactly when that field is present and out of range |
| CreateMapper.ShipmentParcelIssuesExact | src/services/orders/orderCreate.mapper.ts:116 | within the whole shipment group, dimension `dim` of parcel `i` is reported exactly when the parcel list is present, `i` indexes it, and that dimension is present and not positive |
| CreateMapper.PaymentIssues | src/services/orders/orderCreate.mapper.ts:134-170 | each of the five payment enumerations is refused exactly when its value is present and outside the enumeration's values |
| CreateMapper.ScheduleIssues | src/services/orders/orderCreate.mapper.ts:174-181 | each schedule date is refused exactly when it is a non-empty string that fails the ISO datetime test; "", null and absent pass |
| CreateMapper.GroupIssuesReported | src/services/orders/orderCreate.mapper.ts:37-178 | every address-type, payment and schedule issue is among the schema's issues |
| CreateMapper.SchemaIssuesIff | src/services/orders/orderCreate.mapper.ts:59-225 | the schema reports no issue exactly for the requests it accepts: ids are UUIDs, address types, payment values and schedule dates are valid, the lines are long enough, the numeric refinements and the COD gate hold |
| CreateMapper.BuildAddressText | src/services/orders/orderCreate.mapper.ts:292-308 | the mapper's line is "" exactly for a blank address |
| CreateMapper.PartsBlank | src/services/orders/orderCreate.mapper.ts:292-306 | no mapper part is truthy exactly when the address is blank |
| CreateMapper.OnlyBuilding | src/services/orders/orderCreate.mapper.ts:292-308 | an address with only a non-empty building is formatted as the bare building |
| CreateMapper.BuildAddressTextSplits | src/services/orders/orderCreate.mapper.ts:292-308 | with comma-free fields the line splits back into the present fields, in the mapper's order and with "Floor " and "Landmark: " prefixes |
| CreateMapper.OrFalse | src/services/orders/orderCreate.mapper.ts:359-360 | `b ?? false` is true exactly for an explicit true |
| CreateMapper.ResolveAddresses | src/services/orders/orderCreate.mapper.ts:315-416 | the sender id must resolve among the request owner's addresses (any owner when none is named), else 400; then the receiver id, else 400. A resolved address overrides the typed line. `destinationCity = receiver.city ?? given`. The flags default to false. COD amount and currency are null unless COD is on |
| CreateMapper.MapCreateOrder | src/services/orders/orderCreate.mapper.ts:310-416 | a schema error iff there are issues, carrying exactly those issues; a request that parses goes on to the address lookups; an accepted request parses, so its enumerated values and schedule dates are valid, and with COD on its amount is positive and its currency at least two characters after trim |
| CreateMapper.UnknownAddressTypeRefused | src/services/orders/orderCreate.mapper.ts:49 | a sender address of type "HOME" makes the mapper throw a schema error that names the address type |
| CreateMapper.TypedLinesKept | src/services/orders/orderCreate.mapper.ts:90-93 | without address-book ids the mapped lines have at least three characters and the given destination city is kept |
| CreateMapper.BookIrrelevantWithoutIds | src/services/orders/orderCreate.mapper.ts:322-352 | without ids the mapping does not depend on the address book |
| Text.Prefixed | src/services/orders/orderController.ts:29-31 | a truthy field gives exactly the prefix followed by the value, and a falsy field gives no part |
| OrderController.BuildAddressText | src/services/orders/orderController.ts:23-40 | the controller's line is "" exactly for a blank address |
| OrderController.BuildAddressTextSplits | src/services/orders/orderController.ts:23-40 | with comma-free fields the line splits back into the present fields, in the controller's order and with "Bldg ", "Fl. ", "Apt " and "Landmark: " prefixes |
| OrderController.FormatsDiffer | src/services/orders/orderController.ts:29 | for every non-empty building, an address with only that building reads "Bldg " + building in the controller and just the building in the mapper, so the two lines differ |
| OrderController.PartsBlank | src/services/orders/orderController.ts:25-37 | no controller part is truthy exactly when the address is blank |
| OrderController.ResolveAddresses | src/services/orders/orderController.ts:42-85 | an error iff a given id does not resolve: `SenderAddressNotFound` when the sender id does not, otherwise `ReceiverAddressNotFound` when the receiver id does not; a resolved address overrides the trimmed typed line; `destinationCity = receiver.city ?? input ?? null` |
| OrderController.ResolveTypedIdempotent | src/services/orders/orderController.ts:46-52 | without ids, feeding the resolved lines back in changes nothing |
| OrderController.GetOne | src/services/orders/orderController.ts:279-297 | 404 exactly for an unknown id; the order iff the caller may read it (manager, warehouse, owning customer, assigned driver); otherwise 403 |
| OrderController.ListFilterMatchesGetOne | src/services/orders/orderController.ts:286-290 | the list's role filter admits exactly the orders `getOne` serves the same user |
| OrderController.StatusBulkGuard | src/services/orders/orderController.ts:464-491 | a non-array or empty id list is refused with 400 first, then a missing action with 400, then a missing user with 401; otherwise the workflow request carries the body's fields and the user as actor |
| OrderController.AssignBulkGuard | src/services/orders/orderController.ts:333-350 | a missing driver id is refused first, then a bad id list, then a missing user; otherwise the ids and the driver are passed on |
| OrderController.BulkNeverSendsEmptyIds | src/services/orders/orderController.ts:476-480 | behind the guard the workflow never meets an empty id list |
| OrderController.AssignNeverSendsEmptyIds | src/services/orders/orderController.ts:338-342 | behind the guard the assignment never meets an empty id list |
| OrderController.UpdateStatusBulk | src/services/orders/orderController.ts:464-514 | a guard refusal or workflow error answers with its status and leaves the store unchanged; otherwise 200, exactly the workflow's commit, and a reply holding each requested order's updated row in request order |
| OrderController.AssignBulk | src/services/orders/orderController.ts:333-368 | a guard refusal or assignment error answers with its status and leaves the store unchanged; otherwise 200, exactly the assignment's commit, and a reply holding each requested order's assigned row in request order |
| OrderController.SaveAddresses | src/services/orders/orderController.ts:108-166 | each saved row belongs to the truthy owner. The call succeeds exactly when every wanted save has an owner and its snapshot. A wanted pickup save without an owner or snapshot refuses before inserting. A wanted dropoff save without an owner refuses the same way. A dropoff save without a receiver snapshot refuses, keeping only the pickup row if one was inserted. On success one row per wanted save is inserted, the saved id is set and the line is rebuilt in the controller format. A saved dropoff fills a falsy destination city from the receiver's city. Unsaved halves are untouched. The amount is preserved |
| OrderController.DropoffRefusalKeepsPickupRow | src/services/orders/orderController.ts:138-150 | a dropoff refusal leaves the pickup row already inserted |
| OrderController.RepoPayload | src/services/orders/orderController.ts:169 | the repository payload carries the mapped lines, city, COD fields and parcels unchanged |
| OrderController.PaymentGateOnlyMissingAmount | src/services/orders/orderController.ts:221-226 | with payments enabled, a request that passes the schema and the address step is refused by the payment gate exactly when its amount is missing |
| OrderController.InsertAddress | src/services/orders/orderController.ts:126-132 | inserts one address row and changes nothing else |
| OrderController.SavePickupAddress | src/services/orders/orderController.ts:112-136 | the pickup half on the store: exactly `SavePickup`, and its row added; every other address keeps its row |
| OrderController.SaveDropoffAddress | src/services/orders/orderController.ts:138-166 | the dropoff half on the store: exactly `SaveDropoff`, and its row added; every other address keeps its row |
| OrderController.SaveToAddressBook | src/services/orders/orderController.ts:108-166 | given fresh, distinct `pickupId` and `dropoffId`, the address-book step on the store is exactly `SaveAddresses`, the book gains exactly its rows, and every address already in the book keeps its row |
| OrderController.AddRowsSnoc | src/services/orders/orderController.ts:126-160 | adding rows one after another is adding the last row to the earlier result |
| OrderController.Create | src/services/orders/orderController.ts:89-257 | 401 without a user. A mapper error gives 500 for a schema error and 400 for an unresolved id. An address-save refusal gives 400 and keeps the inserted rows but stores no order. Otherwise the order is stored with the next order number and its creation event; with payments on, a missing amount then gives 400, and otherwise the reply is 201 with the order |
| WarehouseScan.Precheck | src/services/warehouse/warehouseController.ts:76-123 | 401 without a user, 403 for roles other than warehouse and manager; it passes exactly when the parcel code, a scan action, the ON_HOLD reason and a warehouse user's own warehouse are all present |
| WarehouseScan.ScanDecision | src/services/warehouse/warehouseController.ts:74-170 | the prechecks first, then 404 for an unknown parcel and then for an unknown order; a warehouse user gets 403 exactly for an order set in another warehouse; otherwise the request carries the parcel id and the effective warehouse. A scan that clears the prechecks and finds its parcel and its order, within scope, always reaches the workflow |
| WarehouseScan.GuardsPrecedeLookups | src/services/warehouse/warehouseController.ts:98-131 | a scan refused by a precheck is refused whatever the parcel and order tables hold |
| WarehouseScan.ScanWarehouse | src/services/warehouse/warehouseController.ts:144-147 | a warehouse user always scans into its own (set) warehouse; a manager into `body ?? order.currentWarehouseId` |
| WarehouseScan.ScanReachesWorkflowRules | src/services/warehouse/warehouseController.ts:161-170 | a scan that passes its guards passes the workflow's role, reason and scope gates; it can fail only on a final order, an illegal edge, or a manager with no warehouse |
| WarehouseScan.ScanPassesPreLoad | src/services/warehouse/warehouseController.ts:102-110 | a scan action by warehouse or manager staff, with its reason when required, passes the workflow's pre-load gates |
| WarehouseScan.ScanPackage | src/services/warehouse/warehouseController.ts:74-183 | a guard's status with the store unchanged, else exactly one `updateOrderStatus` for the parcel's order: the workflow's error, or 200 with the updated order and one event |
| WarehouseScan.CreateWarehouseStatus | src/services/warehouse/warehouseController.ts:23-32 | 400 exactly when the name or location is missing, otherwise 201 |
| LabelAccess.LabelKey | src/features/label/labelController.ts:13 | `labelKey \|\| labelUrl`: truthy iff either is, and `labelKey` when it is truthy |
| LabelAccess.GetLabelPdfUrl | src/features/label/labelController.ts:5-31 | 404 for a missing order, then 404 for a missing label; a URL iff the caller may see the order, otherwise 403; the URL is for the label key and lasts 300 seconds |
| LabelAccess.LabelAccessMatchesGetOne | src/features/label/labelController.ts:18-27 | whoever `getOne` serves an order gets its label, and nobody else |
| InvoiceAccess.GetInvoicePdfUrl | src/services/invoice/invoiceController.ts:14-26 | 404 for a missing invoice, then 404 for a missing PDF; a URL iff a manager or the invoiced customer, otherwise 403; the URL lasts 300 seconds |
| InvoiceAccess.ExistenceBeforeAuthorization | src/services/invoice/invoiceController.ts:14-23 | a caller who may not fetch the invoice gets 404 when there is no PDF and 403 only when there is one |
| InvoiceAccess.StaffOtherThanManagersRefused | src/services/invoice/invoiceController.ts:21-23 | drivers and warehouse staff who are not the invoiced customer are refused an existing invoice |

## Left out

- Action strings outside the `TrackingAction` enumeration and a falsy `action`: the model's `Action` type only holds valid actions, so the `!action` guard of the workflow is unreachable and is not modelled.
- `req.user?.role` missing: the typed request user always carries a role, so the `!req.user?.role` guards of the controllers are folded into `Store.Authenticated`, which tests only the id.
- The whole object re-read by `findMany`/`findUnique` with its `include` joins and `createdAt desc` order: the model returns the updated rows in request order.
- Concurrency and isolation of `prisma.$transaction`: each commit is one atomic method with no interleaving.
- Timestamps: `new Date()` is the parameter `now`; timestamps of events are not modelled.
- The single-order handlers `assign`, `updateStatus` and `updateStatusManager` (orderController.ts:301-331, 372-460): they repeat the bulk guards around a one-element call. The model covers the workflow calls they make (`Workflow.UpdateOrderStatus`, `Workflow.AssignOrdersToDriver`).
- The `list` handler's query parsing (`Number(page)`, `Number(limit)`): pages and limits are integers in the model.
- OrderRepo.PageCount: requires a positive limit. `limit=0` from the query string gives `Math.ceil(total / 0)` (Infinity or NaN), which integers cannot represent. A negative limit such as `limit=-5` passes `Math.min(-5, 200)` unchanged and gives a negative or zero page count, which is not modelled either.
- OrderRepo.HasMoreIffNotLastPage: stated for pages from 1 on; a page of 0 or less gives a negative `skip`, which the database rejects.
- OrderRepo.Window: NaN limits from a non-numeric query string are not modelled.
- Text.Trim: its own contract gives the length bound and the two ends only. That the result is the input with just its leading and trailing whitespace cut is stated by `Text.TrimSlice`. It is kept out of `Trim` so that every caller of `Trim` does not carry the existential.
- The free-text search itself (case-insensitive `contains` over joined tables): the model builds the clause list but does not evaluate it.
- Zod's issue order and aborts: `CreateMapper.SchemaIssues` collects the refinements as a list whose order is the schema's; the messages and paths are not modelled, nor are zod's type errors for values of the wrong JSON type.
- CreateMapper.CreateInput: `pieceTotal` is an integer; a fractional total accepted by the schema is not modelled.
- The values of the payment, schedule, reference and note groups of the create schema: the schema's enumeration and datetime checks on them are modelled (`CreateMapper.PaymentIssues`, `CreateMapper.ScheduleIssues`), but the mapper's copying of the checked values into the repository payload is not, and no modelled operation reads them. The same holds for the `addressType` of a structured address.
- The order of the loaded rows: the loading `findMany` of the workflow (orderWorkFlow.ts:264-272) has no `orderBy`, so the database decides the order of the rows and of every error listing built from them (final, not assigned, other warehouse, illegal edge, not assignable). The model takes the loaded rows in request order.
- Label generation and upload in `create` (the loop at orderController.ts:177-210) and the invoice and Stripe calls (228-240): file and network I/O. The model stops at the order row and the reply status.
- Presigning of S3 URLs: the model returns the key and the expiry the URL is signed with.
- Address rows inserted by `create`: the model stores the owner and the structured snapshot; `isSaved` and the generated timestamps are not modelled.
- Floating-point arithmetic: amounts and dimensions are reals; there is no rounding.
- UTF-16 code units: string lengths (`min(3)`, `trim().length < 2`) count characters.
