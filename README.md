# Pharmacy order and prescription management — a Dafny model

This project models the core of a multi-role pharmacy platform. Customers
browse a medicine catalogue and place orders, with a prescription when the
cart needs one. Pharmacists manage orders, inventory and the catalogue.
Delivery agents complete deliveries with a one-time password (OTP).

The model covers these parts of the system:

- **Back end**
  - The four route groups `/orders`, `/delivery`, `/inventory` and
    `/medicines`.
  - The four document schemas: Order, Medicine, Prescription and Inventory.
  - The billing table that order creation writes to.
  - The SMS message chooser.
- **Front end**
  - The customer's order page (`MyOrders.jsx`).
  - The pharmacist's dashboard (`Dashboard.jsx`).
  - The checkout page (`Checkout.jsx`).

## Layout

| file | module | what it holds |
|---|---|---|
| `wrappers.dfy` | `Wrappers` | `Option`, and the one-field update predicates `Overwrites` and `OverwritesOptional` |
| `http.dfy` | `Http` | error responses with their HTTP codes, `Response`, roles |
| `text.dfy` | `Text` | decimal rendering of numbers, ASCII case folding, substring search |
| `collections.dfy` | `Collections` | `filter` and a left-to-right summing `reduce`, with their algebra |
| `order_model.dfy`, `medicine_model.dfy`, `prescription_model.dfy`, `inventory_model.dfy` | `OrderModel`, `MedicineModel`, `PrescriptionModel`, `InventoryModel` | one datatype per document, its enumerations and defaults, creation from a request body, and the `{ ...body }` update |
| `billing.dfy` | `Billing` | the billing row written for an order |
| `ledger.dfy` | `Ledger` | the `$inc` stock update and the stock *balance* (explained below) |
| `store.dfy` | `Store` | class `Db`, which holds the persisted state and its invariant, and the `find(...).sort({createdAt: -1})` listing |
| `notifications.dfy` | `Notifications` | the status-change SMS |
| `order_routes.dfy`, `delivery_routes.dfy`, `inventory_routes.dfy`, `medicine_routes.dfy` | `OrderRoutes`, `DeliveryRoutes`, `InventoryRoutes`, `MedicineRoutes` | one method per route handler that writes; pure functions for the reads and for each per-document step |
| `my_orders.dfy`, `dashboard.dfy`, `checkout.dfy` | `MyOrdersView`, `Dashboard`, `Checkout` | the computations of the three pages |

### How state is modelled

The persisted state is one object of class `Store.Db`. It has four fields:

- `medicines`, `orders` and `inventory` are maps from a document's `_id`;
- `billing` is the sequence of rows in the relational billing table.

Each route handler that writes becomes a method with `modifies db`. Its
`ensures` clauses state the response and the whole new state.

The effect of a handler on one document is a pure function:
`StatusStep`, `AssignStep`, `DeliveryStatusStep` and `VerifyOtpStep`.
The lemmas about a handler's behaviour are stated over these functions.

`Db.Valid()` is the store invariant. Every order-writing handler keeps it:

- `orderId` is unique;
- billing `order_id` is unique;
- there is exactly one billing row per order, and it is `BillingFor` that order;
- each order's `totalAmount` is the sum of its lines;
- an order with a delivery agent has a four-digit OTP.

### The stock balance

A medicine's **balance** is its `stock` minus the quantities of all
inventory records that point to it (`Ledger.BalanceOf`, `Db.Balance`).

- The inventory routes change a record's quantity and the medicine's stock
  by the same amount. So adding a record keeps every balance, and so does
  updating one that stays on the same medicine.
- Creating an order lowers each medicine's balance by the quantity ordered.

These facts are proved for every input (`AddInventory`, `UpdateInventory`,
`CreateOrder`).

### Where the code departs from its evident intent

The model follows the code. The first five differences below are each
proved as a lemma. The last two rest on the `ensures` clauses of
`AddInventory` and `UpdateInventory`.

- **Stock can go negative.** Each requested line is checked against the
  stock as it was before the order. Two lines naming the same medicine can
  therefore both pass the check and drive the stock below zero
  (`DuplicateLinesOversell`). With distinct lines the check does protect
  the stock (`DistinctLinesKeepStock`).
- **The OTP is not single use.** After a successful check, the same OTP
  succeeds again (`ReplaySucceeds`).
- **The agent's status route skips the OTP.** It can mark an order
  `delivered` without an OTP (`StatusRouteSkipsOtp`).
- **Order status is not monotonic.** `PUT /orders/:id/status` requires
  only an authenticated caller, with no role check. Any such caller, a
  customer included, can set any status after any other
  (`AnyStatusReachable`).
- **The prescription is not checked.** Order creation never looks up the
  prescription. An order that names no prescription is placed even when
  its lines need one (`PrescriptionNotChecked`). Only the checkout page
  makes sure one is named (`RxRequestsNamePrescription`).
- **An unknown inventory id gives 500, not 404.** `PUT /inventory/:id`
  reads the old record's quantity before the lookup is checked, so its 404
  branch cannot be reached.
- **The inventory delta has the same sign.** The inventory routes apply the
  *same* delta to the stock as to the record, not an opposite one.

## Model

| member | source | states |
|---|---|---|
| Collections.Filter | Pharmacy/src/pages/Pharmacist/Dashboard.jsx:29-30 | `filter` keeps exactly the elements satisfying the predicate: every kept element is in the input and satisfies it, every satisfying input element is kept, and the result is no longer than the input |
| Collections.FilterConcat | Pharmacy/src/pages/Pharmacist/Dashboard.jsx:29-37 | filtering a concatenation is the concatenation of the filtered pieces, so kept elements stay in input order |
| Collections.FilterAll | Pharmacy/src/pages/Pharmacist/Dashboard.jsx:35-37 | when every element is kept, the result is the input |
| Collections.FilterNone | Pharmacy/src/pages/Pharmacist/Dashboard.jsx:35-37 | when no element is kept, the result is empty |
| Collections.FilterCountSplit | Pharmacy/src/pages/Pharmacist/Dashboard.jsx:29 | for complementary predicates, the two filtered lengths add up to the input length |
| Collections.SumRealConcat | Pharmacy/src/pages/Pharmacist/Dashboard.jsx:35-37 | the `reduce` sum over a concatenation is the sum of the two sums |
| Text.DecimalString | backend/routes/orders.js:192 | `Number.toString` of a natural number is a non-empty string of digits whose first digit is `0` only for zero |
| Text.ParseDecimalString | backend/routes/orders.js:192 | reading the rendered digits back gives the number |
| Text.FourDigits | backend/routes/orders.js:192 | the numbers 1000 to 9999 render as exactly four digits |
| OrderModel.StatusNameInjective | backend/models/Order.js:23-27 | the seven order statuses are stored as seven different strings |
| OrderModel.SubtotalAppend | backend/routes/orders.js:31 | adding a line adds its price times its quantity to the order amount |
| OrderModel.NewOrder | backend/routes/orders.js:46-55 | a new order carries the given id, user, lines, amount, status, prescription and address; `deliveryType` defaults to `delivery`; no agent, OTP, signature or notes |
| MedicineModel.NewMedicine | backend/routes/medicines.js:57-58 | `new Medicine(body).save()` succeeds exactly when a non-empty name and a price are given; the stored name, price, eight optional fields and any supplied value are the body's; category, stock, prescription flag and symptoms default to `OTC`, 0, false and empty, and the timestamps to the creation time |
| MedicineModel.NewMedicineFromFields | backend/models/Medicine.js:3-20 | the defaults never override a supplied field: a medicine built from all its own fields, timestamps included, is that medicine |
| MedicineModel.NewIsDefaultsUpdated | backend/models/Medicine.js:3-20 | creation is the schema defaults overwritten field by field by the body, exactly as the update route overwrites a stored medicine, when the body carries no `updatedAt` |
| MedicineModel.ApplyMedicineFields | backend/routes/medicines.js:73-77 | for each of the fourteen schema fields and `createdAt`, a value in the body replaces the stored one and an absent one keeps it; `updatedAt` is set to the update time whatever the body says |
| MedicineModel.ApplyAllFields | backend/routes/medicines.js:73-77 | a body carrying every field of a medicine turns any stored medicine into that one, apart from `updatedAt` |
| MedicineModel.ApplyNoFields | backend/routes/medicines.js:73-77 | an empty body changes only `updatedAt` |
| MedicineModel.ApplyIdempotent | backend/routes/medicines.js:73-77 | applying the same body twice equals applying it once |
| PrescriptionModel.NewPrescription | backend/models/Prescription.js:3-21 | a prescription is accepted exactly when it has a user and a non-empty image URL; the user, the image URL, the seven optional fields and any supplied value are the body's; status defaults to `pending`, medicines to the empty list, and the timestamps to the creation time |
| PrescriptionModel.NewPrescriptionFromFields | backend/models/Prescription.js:3-21 | a prescription built from all its own fields is that prescription |
| PrescriptionModel.StatusUnlinkedFromVerifier | backend/models/Prescription.js:11-18 | the schema accepts a `verified` prescription that has a rejection reason and no verifier |
| InventoryModel.NewInventory | backend/models/Inventory.js:3-13 | a record is accepted exactly when it has a medicine and a quantity; the medicine, quantity, supplier, batch number, expiry date, location and any supplied value are the body's; `reorderLevel` defaults to 10, and `lastRestocked` and `updatedAt` to the creation time |
| InventoryModel.NewInventoryFromFields | backend/models/Inventory.js:3-13 | a record built from all its own fields is that record |
| InventoryModel.ApplyInventoryFields | backend/routes/inventory.js:47-51 | for each of the eight schema fields, a value in the body replaces the stored one and an absent one keeps it; `updatedAt` is set to the update time whatever the body says |
| Billing.BillingFor | backend/routes/orders.js:68-74 | the billing row carries the order's id, user and amount; tax is 18% of the amount, total is 118%, and the payment status is `pending` |
| Ledger.IncStock | backend/routes/orders.js:61-64 | `$inc` on a medicine's stock changes only that medicine's stock, by the delta; an unknown id changes nothing |
| Ledger.IncStockZero | backend/routes/inventory.js:58-63 | an increment by zero leaves the medicines unchanged, so skipping a zero difference is harmless |
| Ledger.AddRecordKeepsBalance | backend/routes/inventory.js:22-29 | storing a record and adding its quantity to its medicine's stock keeps every medicine's balance |
| Ledger.ReplaceRecordShiftsBalance | backend/routes/inventory.js:44-63 | rewriting a record and adding the quantity difference to its new medicine's stock moves the old quantity from the old medicine's balance to the new one's, and keeps every other balance |
| Store.ReplaceKeepsConsistent | backend/routes/orders.js:148-152 | rewriting an order's mutable fields, when the order stays well formed, keeps the store invariant |
| Store.InsertKeepsConsistent | backend/routes/orders.js:46-74 | storing a new well-formed order with a fresh `orderId`, together with its billing row, keeps the store invariant |
| Store.InsertNewestFirst | backend/routes/orders.js:110-112 | inserting an order before the first older one keeps a list sorted newest first, and the result is the list with the entry inserted |
| Store.InsertedEntries | backend/routes/orders.js:110-112 | an insertion adds exactly the entry's id to the list's ids and shifts the later entries by one |
| Store.ListingInsert | backend/routes/orders.js:110-112 | visiting one more kept order and inserting it keeps the partial listing complete and duplicate-free |
| Store.FindNewestFirst | backend/routes/orders.js:110-112 | `find(query).sort({createdAt: -1})` returns exactly the stored orders the query keeps, each once with its id, newest first |
| Notifications.Template | backend/utils/notifications.js:25-34 | exactly the six statuses `verified`, `processing`, `assigned`, `picked_up`, `delivered` and `rejected` have a message of their own |
| Notifications.StatusMessage | backend/utils/notifications.js:24-34 | the status SMS starts with `Your order `, then the order id, and is longer than both |
| Notifications.UntemplatedFallsBack | backend/utils/notifications.js:34 | any status string without a message of its own, including one outside the enumeration, gives `Your order <id> status: <status>` |
| Notifications.PendingFallsBack | backend/utils/notifications.js:34 | `pending` has no message of its own and gives `Your order <id> status: pending` |
| Notifications.TemplateNotGeneric | backend/utils/notifications.js:25-34 | none of the six status messages starts like the generic `status:` one |
| Notifications.TailInjective | backend/utils/notifications.js:25-34 | different statuses give different text after the order id |
| Notifications.StatusMessageInjective | backend/utils/notifications.js:24-34 | for one order, different statuses give different messages |
| OrderRoutes.LineFailure | backend/routes/orders.js:20-29 | a line fails exactly when its medicine is unknown (404) or has less stock than the quantity (400) |
| OrderRoutes.CheckLines | backend/routes/orders.js:19-40 | a successful validation pass gives one snapshot per requested line |
| OrderRoutes.CheckLinesMeaning | backend/routes/orders.js:19-40 | validation succeeds exactly when every line can be served, giving one price snapshot per line in line order; otherwise it reports the first failing line's error |
| OrderRoutes.CheckLinesErrSticks | backend/routes/orders.js:19-29 | once a prefix of the lines fails, the whole request fails with that error |
| OrderRoutes.CheckLinesStep | backend/routes/orders.js:19-40 | the result for one more line follows from the result for the lines before it |
| OrderRoutes.DecrementsEffect | backend/routes/orders.js:60-65 | the stock updates lower each medicine's stock by the total quantity ordered of it and change nothing else |
| OrderRoutes.OrderedQtyAbsent | backend/routes/orders.js:60-65 | items that never name a medicine order none of it |
| OrderRoutes.OrderedQtySingle | backend/routes/orders.js:60-65 | items that name a medicine once order that item's quantity of it |
| OrderRoutes.DistinctLinesKeepStock | backend/routes/orders.js:25-29 | when no medicine appears on two lines, a successful check leaves no non-negative stock negative |
| OrderRoutes.DuplicateLinesOversell | backend/routes/orders.js:19-65 | two lines of one unit for a medicine with one unit in stock both pass, and the stock ends at -1 |
| OrderRoutes.OrderIdFor | backend/routes/orders.js:43 | the order id is `ORD-`, the decimal creation time, `-` and the random suffix, in that order |
| OrderRoutes.OrderIdInjective | backend/routes/orders.js:43 | two orders created at different times, or with different suffixes, get different ids |
| OrderRoutes.PlaceOrder | backend/routes/orders.js:11-83 | order creation succeeds exactly when every line passes and the id is free; otherwise it reports the first line error, or 500 on an id clash; a new order is `pending`, holds the snapshots, totals their sum, carries the request's prescription and address, has the request's delivery type or `delivery`, and has no agent, OTP, signature or notes |
| OrderRoutes.PrescriptionNotChecked | backend/routes/orders.js:11-83 | an order that names no prescription, and whose lines all pass the stock check, is placed even when its lines are for prescription-only medicines |
| OrderRoutes.ValidateLines | backend/routes/orders.js:16-40 | the validation loop returns the result of `CheckLines` and, on success, the sum of the lines |
| OrderRoutes.DecrementStock | backend/routes/orders.js:60-65 | the stock loop applies one `$inc` per item and touches nothing else |
| OrderRoutes.CreateOrder | backend/routes/orders.js:11-83 | `POST /orders` answers `PlaceOrder`; on success it stores the order, decrements the stock, appends the billing row, keeps the store invariant, and lowers each medicine's balance by the quantity ordered; on failure nothing is written |
| OrderRoutes.GetOrder | backend/routes/orders.js:122-136 | an order is returned exactly when it exists and the caller is not a customer, or owns it; otherwise 404, then 403 |
| OrderRoutes.ListMyOrders | backend/routes/orders.js:87-93 | the listing holds exactly the caller's orders, each once, newest first |
| OrderRoutes.ListOrders | backend/routes/orders.js:101-114 | the listing holds exactly the orders the status query keeps, each once, newest first |
| OrderRoutes.EmptyStatusQueryKeepsAll | backend/routes/orders.js:105-108 | an absent or empty status parameter keeps every order |
| OrderRoutes.StatusQuerySelects | backend/routes/orders.js:106-108 | a status parameter keeps exactly the orders in that status |
| OrderRoutes.StatusStep | backend/routes/orders.js:146-152 | the status update sets the given status and notes and keeps the rest; identity, items and total do not change |
| OrderRoutes.AnyStatusReachable | backend/routes/orders.js:144-152 | any status can follow any other, and the order stays well formed |
| OrderRoutes.StatusSms | backend/routes/orders.js:158-170 | an SMS is sent exactly when the customer has a non-empty phone, to that phone, with the status message that names the order |
| OrderRoutes.UpdateOrderStatus | backend/routes/orders.js:144-175 | `PUT /orders/:id/status` answers 404 for an unknown order; otherwise it stores `StatusStep`, returns it with the SMS, and keeps the store invariant |
| OrderRoutes.DrawOtp | backend/routes/orders.js:192 | the OTP is the decimal rendering of `floor(1000 + random * 9000)` for the given random number: four digits with no leading zero, its value between 1000 and 9999 |
| OrderRoutes.AssignStep | backend/routes/orders.js:187-196 | assignment sets status `assigned` and a new OTP, sets the agent when one is given, refreshes `updatedAt`, and changes no other field |
| OrderRoutes.AssignKeepsWellFormed | backend/routes/orders.js:187-196 | assigning with a four-digit OTP keeps an order well formed |
| OrderRoutes.AssignOrder | backend/routes/orders.js:183-205 | `PUT /orders/:id/assign` answers 404 for an unknown order; otherwise it stores and returns `AssignStep` and keeps the store invariant |
| DeliveryRoutes.MyDeliveries | backend/routes/delivery.js:8-17 | the listing holds exactly the orders assigned to the agent in status `assigned` or `picked_up`, each once, newest first |
| DeliveryRoutes.DeliveryStatusStep | backend/routes/delivery.js:35-43 | only the assigned agent may update; the status becomes the requested one, the signature changes only when a non-empty one is given, `updatedAt` is refreshed, and no other field changes |
| DeliveryRoutes.StatusRouteSkipsOtp | backend/routes/delivery.js:39 | the assigned agent can set `delivered` through this route without any OTP |
| DeliveryRoutes.UpdateDeliveryStatus | backend/routes/delivery.js:25-50 | `PUT /delivery/:id/status` answers 404 for an unknown order, otherwise `DeliveryStatusStep`; only a success writes, and the invariant is kept |
| DeliveryRoutes.VerifyOtpStep | backend/routes/delivery.js:68-77 | verification succeeds exactly for the assigned agent with the stored OTP; otherwise 403, then 400 `Invalid OTP`; success sets `delivered` and changes nothing else |
| DeliveryRoutes.VerifyNeedsTheCode | backend/routes/delivery.js:72 | on a well-formed order, success needs the four-digit OTP the assignment drew |
| DeliveryRoutes.ReplaySucceeds | backend/routes/delivery.js:72-78 | the OTP is not cleared, so the same verification succeeds again |
| DeliveryRoutes.VerifyOtp | backend/routes/delivery.js:58-83 | `POST /delivery/:id/verify-otp` answers 404 for an unknown order, otherwise `VerifyOtpStep`; only a success writes, and the invariant is kept |
| InventoryRoutes.AddInventory | backend/routes/inventory.js:20-39 | an invalid body gives 500 with no write; otherwise the record is stored, its medicine's stock rises by its quantity, and every balance is kept |
| InventoryRoutes.UpdateInventory | backend/routes/inventory.js:42-73 | an unknown id gives 500 with no write; otherwise the record is rewritten; a body without a quantity then gives 500 with the stock unchanged; otherwise the stock of the record's medicine moves by the quantity difference; balances shift as `ReplaceRecordShiftsBalance` says |
| InventoryRoutes.UpdateKeepsBalance | backend/routes/inventory.js:44-63 | an update that keeps the record on the same medicine keeps every balance |
| InventoryRoutes.LowStock | backend/routes/inventory.js:78-80 | the low-stock listing holds exactly the records with quantity at most 10 |
| InventoryRoutes.ReorderLevelIgnored | backend/routes/inventory.js:80 | a record above 10 units is not listed, even when its own reorder level is higher |
| MedicineRoutes.SearchedTextsHit | backend/routes/medicines.js:14-20 | the `$or` of the name, generic-name and symptom conditions holds exactly when one of the searched texts contains the search text |
| MedicineRoutes.MatchesSearch | backend/routes/medicines.js:14-20 | a medicine matches the search exactly when the text occurs, ignoring ASCII case, in its name, its generic name when it has one, or one of its symptoms |
| MedicineRoutes.Matches | backend/routes/medicines.js:8-31 | the query predicate: each present parameter (a non-empty `search` or `category`, any `requiresPrescription`) adds its condition, and all must hold; its meaning is stated by `ListMedicines`, `FiltersCompose`, `SearchFilter`, `CategoryFilter`, `PrescriptionFilter` and `FoundByName` |
| MedicineRoutes.ListMedicines | backend/routes/medicines.js:8-31 | the catalogue lists exactly the medicines that match every given parameter, unchanged |
| MedicineRoutes.NoQueryListsAll | backend/routes/medicines.js:12-30 | without parameters the whole catalogue is listed |
| MedicineRoutes.FiltersCompose | backend/routes/medicines.js:14-28 | the three parameters combine conjunctively: listing with all of them is listing with each in turn |
| MedicineRoutes.SearchFilter | backend/routes/medicines.js:14-20 | the search parameter alone keeps exactly the medicines the search matches, and an empty one keeps all |
| MedicineRoutes.CategoryFilter | backend/routes/medicines.js:22-24 | a category parameter keeps exactly the medicines of that category |
| MedicineRoutes.PrescriptionFilter | backend/routes/medicines.js:26-28 | `requiresPrescription=true` keeps prescription medicines, and any other value keeps the others |
| MedicineRoutes.FoundByName | backend/routes/medicines.js:14-19 | searching for a medicine's own name finds it |
| MedicineRoutes.GetMedicine | backend/routes/medicines.js:39-47 | a medicine is returned exactly when it exists, otherwise 404 `Medicine not found` |
| MedicineRoutes.AddMedicine | backend/routes/medicines.js:55-66 | an invalid body gives 500 with no write; otherwise the new medicine is stored and returned; other collections are unchanged |
| MedicineRoutes.UpdateMedicine | backend/routes/medicines.js:71-86 | an unknown id gives 404 with no write; otherwise the stored medicine becomes `ApplyMedicineFields` of it, so each supplied field replaces the stored one and every other field is kept; other collections are unchanged |
| MedicineRoutes.DeleteMedicine | backend/routes/medicines.js:94-102 | an unknown id gives 404; otherwise only that medicine is removed, the answer is `Medicine deleted successfully`, and orders and inventory records are kept |
| MyOrdersView.IndexOf | Pharmacy/src/pages/Customer/MyOrders.jsx:127 | `indexOf` returns the first index holding the value, or -1 exactly when it is absent |
| MyOrdersView.Timeline | Pharmacy/src/pages/Customer/MyOrders.jsx:126-127 | step i is passed exactly when i is at most the status's step index, so the passed steps form a prefix |
| MyOrdersView.StepMarksPrefix | Pharmacy/src/pages/Customer/MyOrders.jsx:126-127 | each timeline status marks its own step and the steps before it |
| MyOrdersView.DeliveredMarksAll | Pharmacy/src/pages/Customer/MyOrders.jsx:126-127 | `delivered` marks all six steps |
| MyOrdersView.PendingMarksFirst | Pharmacy/src/pages/Customer/MyOrders.jsx:126-127 | `pending` marks only the first step |
| MyOrdersView.OffTimelineMarksNothing | Pharmacy/src/pages/Customer/MyOrders.jsx:126-127 | `rejected`, and any status that is not a step, marks nothing |
| MyOrdersView.StatusText | Pharmacy/src/pages/Customer/MyOrders.jsx:36-47 | a status is shown verbatim exactly when it is not one of the seven known ones; each known one gets a label other than its raw string |
| MyOrdersView.StatusColor | Pharmacy/src/pages/Customer/MyOrders.jsx:23-34 | a status is gray exactly when it is not one of the seven known ones |
| MyOrdersView.EnumStatusesLabelled | Pharmacy/src/pages/Customer/MyOrders.jsx:23-47 | each of the seven enumerated statuses is a known one, so it is shown with a label other than its raw string and a colour other than gray |
| MyOrdersView.EnumStatusesDistinguished | Pharmacy/src/pages/Customer/MyOrders.jsx:23-47 | different enumerated statuses get different labels and different colours |
| MyOrdersView.UnknownStatusShownRaw | Pharmacy/src/pages/Customer/MyOrders.jsx:23-47 | a status outside the enumeration, which the status routes can store, is shown verbatim, in gray, with no timeline step marked |
| Dashboard.PendingOrders | Pharmacy/src/pages/Pharmacist/Dashboard.jsx:29 | the pending-order count is at most the number of orders |
| Dashboard.PendingPrescriptions | Pharmacy/src/pages/Pharmacist/Dashboard.jsx:30 | the pending-prescription count is at most the number of prescriptions |
| Dashboard.FilteredSumIsMaskedSum | Pharmacy/src/pages/Pharmacist/Dashboard.jsx:35-37 | summing the amounts of the delivered orders equals summing, over all orders, the amount when delivered and 0 otherwise |
| Dashboard.Revenue | Pharmacy/src/pages/Pharmacist/Dashboard.jsx:35-37 | the revenue is the sum over all orders of each delivered order's amount, other orders adding nothing |
| Dashboard.PendingOrdersComplement | Pharmacy/src/pages/Pharmacist/Dashboard.jsx:29 | pending orders plus the other orders make up all orders |
| Dashboard.StatsSplit | Pharmacy/src/pages/Pharmacist/Dashboard.jsx:29-37 | the pending count and the revenue add up over the two halves of a list |
| Dashboard.NoDeliveriesNoRevenue | Pharmacy/src/pages/Pharmacist/Dashboard.jsx:35-37 | without delivered orders the revenue is 0 |
| Dashboard.AllDeliveredRevenue | Pharmacy/src/pages/Pharmacist/Dashboard.jsx:35-37 | when every order is delivered, the revenue is the sum of all amounts |
| Dashboard.RevenueAppend | Pharmacy/src/pages/Pharmacist/Dashboard.jsx:35-37 | one more delivered order adds its amount to the revenue; any other order adds nothing |
| Dashboard.Recent | Pharmacy/src/pages/Pharmacist/Dashboard.jsx:40 | the recent list is the first min(5, n) orders |
| Dashboard.ComputeStats | Pharmacy/src/pages/Pharmacist/Dashboard.jsx:28-39 | the two counts are the numbers of pending orders and pending prescriptions, bounded by the list lengths, and the revenue is that of the delivered orders |
| Checkout.HasRxItems | Pharmacy/src/pages/Customer/Checkout.jsx:22 | the cart needs a prescription exactly when some item requires one |
| Checkout.VerifiedPrescriptions | Pharmacy/src/pages/Customer/Checkout.jsx:34 | the offered prescriptions are exactly the fetched ones with status `verified` |
| Checkout.VerifiedKeepsOrder | Pharmacy/src/pages/Customer/Checkout.jsx:34 | the offered list keeps the fetched order |
| Checkout.BuildOrderRequest | Pharmacy/src/pages/Customer/Checkout.jsx:52-60 | one line per cart item, in order, with id and quantity; the address only for home delivery; the prescription only when one is selected |
| Checkout.Submit | Pharmacy/src/pages/Customer/Checkout.jsx:40-62 | submission is blocked with the prescription error exactly when the cart needs a prescription and none is selected; otherwise the built request is sent |
| Checkout.RxRequestsNamePrescription | Pharmacy/src/pages/Customer/Checkout.jsx:44-59 | every request sent for a cart that needs a prescription names the selected prescription |
| Checkout.DisplayedTotalMatchesBilling | Pharmacy/src/pages/Customer/Checkout.jsx:234-238 | for a subtotal equal to an order's amount, the shown total is the subtotal plus the shown tax, and the tax and total equal those of the billing row the server writes for that order |

## Left out

- Authentication, authorisation and roles: the caller's id and role are parameters.
  - The middleware, and the `authorize(...)` role lists, are not part of this model.
- `populate('prescriptionId')` and `populate('medicineId')`: the listings return the stored documents.
- SMS sending (the provider client) is left out. `UpdateOrderStatus` returns the message it would send.
  - Any error from sending is caught in the source, so it cannot change the response.
- The phone lookup in the users table is left out: the phone number is a parameter.
- The clock (`Date.now()`), `Math.random()` and the random order-id suffix are parameters.
- Generated document `_id`s are parameters, assumed fresh.
- The prescriptions route, the file storage, the server set-up, database initialisation and the seed script are not part of this model.
- `GET /inventory` is left out: it returns the whole collection unchanged.
- The dashboard's `todayOrders` count is left out, because it depends on the local calendar date.
- The cart context's `getTotalPrice` is left out: the checkout subtotal is a parameter.
- Checkout's loading flag, error setter and navigation are left out: `Submit` returns a pure outcome.
- Concurrency is left out: every handler runs to completion alone, so the check-then-decrement race is not modelled.
- Database failures are left out, except the order-id unique clash, which gives 500 like any failure of the create route.
  - A malformed id that the store cannot cast, which gives 500, is also left out.
- A `POST /orders` body without an `items` array, which gives 500, is left out.
- A PUT body cannot unset a field: an absent field is `None` and keeps the stored value.
- Lookups such as `messages[status]`, `colors[status]` and `texts[status]` can also hit inherited `Object.prototype` keys (for example `constructor`). This is left out.
- Search is modelled as a case-insensitive substring match for ASCII letters only.
  - Regular-expression metacharacters in the search text are not interpreted.
  - Non-ASCII case folding is not modelled.
- UpdateOrderStatus: the requested status is one of the seven enumerated values. The source's update runs no schema validation, so it would also store any other string; that is not modelled.
- UpdateDeliveryStatus: the requested status is one of the seven enumerated values. In the source an absent status clears the stored one and the save succeeds with 200, because the schema does not require a status; a status outside the enumeration fails validation on save and gives 500. Neither case is modelled.
- DrawOtp: the arithmetic is on exact reals. Floating-point rounding of `1000 + random * 9000` is not modelled.
- Billing.BillingFor: amounts are exact reals. IEEE-754 rounding of `totalAmount * 0.18` is not modelled.
- Checkout.DisplayedTotalMatchesBilling: the `toFixed(2)` rounding is not modelled.
- Dashboard.ComputeStats: the `toFixed(0)` display rounding is not modelled.
- VerifyOtpStep: the OTP in the request is a string or absent. A JSON number would always fail the strict comparison with the stored string and give 400; such a body is not modelled.
- The delivery address is modelled with all five subfields present. In the schema each subfield is optional; an address missing some of them is not modelled.
- Quantities are integers and prices exact reals. The source checks neither for sign, and the model keeps that. A fractional or non-numeric quantity cannot be written in the model, so what the source does with one is not modelled.
- PlaceOrder: the delivery type is `delivery` or `pickup`. In the source any other string fails schema validation on save, gives 500 and writes nothing; that is not modelled.
- NewMedicine: the category is one of the three enumerated values. In the source any other string fails schema validation and gives 500; that is not modelled.
- ApplyMedicineFields: the category is one of the three enumerated values. In the source `PUT /medicines/:id` runs no validation, so it would store any other string; that is not modelled.
- `sendRefillReminder` is not part of this model.
