# Order lifecycle engine — a Dafny model

This project models the core of a purchase-order approval service: the order
lifecycle engine in `app/Services/OrderService.php` and the line-item total
rule in `app/Models/OrderItem.php`.

- An order is `draft`, `pending_approval`, `approved` or `rejected`.
- `createOrder` makes a draft from a non-empty list of items.
- `submitOrder` sends a draft either to `pending_approval` (total at least
  1000.00) or straight to `approved` (approved by the submitter).
- `approveOrder` and `rejectOrder` decide a pending order.
- `updateOrder` replaces all items of any order that is not approved, and
  its notes when new ones are given. It writes no history.
- Every status change appends exactly one entry to the status history.
- Order numbers have the form `ORD-<date>-<sequence>`. They come from a
  bounded search for a free sequence number.

Files:

- `wrappers.dfy`: `Option` (PHP `null`) and `Result` (an operation that throws).
- `order_item.dfy`, module `OrderItems`: the `OrderItem` model as a class.
  Its `creating`/`updating` events are methods called by `Save`, and
  `isDirty` is tracked against the stored ("original") attribute values.
  The module also has the saved-item value `ItemRow` and the sum of line totals.
- `order_number.dfy`, module `OrderNumbers`: `generateOrderNumber` as a
  method with its loop. Also the decimal rendering, `str_pad` zero padding,
  and lemmas that the number encodes its sequence (parse round trip,
  injectivity, the `ORD-\d{8}-\d{4}` shape).
- `order_service.dfy`, module `OrderService`: the orders table and the
  history table as the class `OrderStore` (a map of orders, a sequence of
  history entries, and the last id handed out), with one method per service
  operation. The invariant `StoreValid` says:
  - every order id lies between 1 and the last id handed out, and that last
    id, once one has been handed out, belongs to a stored order (no order is
    ever deleted);
  - every item obeys the line-total rule;
  - every order total is the sum of its item totals;
  - an order has an approver and an approval time exactly when it is approved;
  - every history entry belongs to a stored order;
  - each order's history is a walk through the state machine that starts at
    creation and ends in its current status.
- `scenarios.dfy`, module `Scenarios`: concrete runs, each proved from the
  contracts alone. Most follow a unit test. A few follow the service or model
  code directly: approving a draft, the three history entries of a full run,
  a rejected order that can be edited but not resubmitted, and the two item
  saves that keep a total.

Money is a whole number of cents, so 1000.00 is `100000`. The inputs
`now()`, `date('Ymd')` and `uniqid()` are parameters. The "latest order"
that the number search starts from is the last id the table handed out.
Every guard is checked before any field is written, which is how the model
captures the all-or-nothing transactions. A failed operation leaves both
tables unchanged.

Behaviour of the code worth knowing:

- The sequence starts at the latest order's id + 1.
- The service itself does not require a rejection comment. Only the request
  validation does (`app/Http/Controllers/Api/OrderController.php:280`), so
  here it is a precondition of `RejectOrder`, not an error result.
- A rejected order can still be edited, but no operation changes its status
  again, because `submitOrder` accepts only drafts
  (`Scenarios.RejectedIsEditableButFinal`).
- Pending orders may be updated too, and later approval does not re-check
  the threshold.

## Model

| member | source | states |
|---|---|---|
| `OrderItems.OrderItem.CalculateTotalPrice` | app/Models/OrderItem.php:49-52 | afterwards the total is quantity × unit price; no other attribute changes (frame `this`totalPrice`) |
| `OrderItems.OrderItem.OnCreating` | app/Models/OrderItem.php:61-65 | an unset or zero total is computed; an explicitly supplied non-zero total is kept |
| `OrderItems.OrderItem.OnUpdating` | app/Models/OrderItem.php:67-71 | a change to quantity or unit price recomputes the total; otherwise the total is left as it was; an item consistent at its last save whose total was not touched is consistent again |
| `OrderItems.OrderItem.Save` | app/Models/OrderItem.php:57-72 | a new item runs the creating rule, a stored one the updating rule; afterwards the item is stored and nothing is dirty |
| `OrderItems.LineTotal` | app/Models/OrderItem.php:51 | defines a line total as quantity × unit price, exact in cents |
| `OrderItems.SumTotals` | app/Services/OrderService.php:70-84 | defines an order total as the sum of its items' totals, zero for no items |
| `OrderItems.OrderItem.IsPriceDirty` | app/Models/OrderItem.php:68 | defines `isDirty(['quantity', 'unit_price'])`: quantity or unit price differs from its stored value |
| `OrderItems.SumTotalsConcat` | app/Services/OrderService.php:70-84 | the order total of a concatenation is the sum of the parts' totals, which justifies accumulating it item by item |
| `OrderItems.SumTotalsPositive` | app/Http/Controllers/Api/OrderController.php:78-79 | with quantities ≥ 1 and prices ≥ 0.01 as validated, a non-empty order's total is positive |
| `OrderNumbers.DecimalString` | app/Services/OrderService.php:25 | the rendering of an id is a non-empty string of digits |
| `OrderNumbers.PadLeft` | app/Services/OrderService.php:25 | defines `str_pad(…, '0', STR_PAD_LEFT)`: zeros are prepended up to the width, and a longer string is kept whole |
| `OrderNumbers.PadLeftLayout` | app/Services/OrderService.php:25 | the padded string ends with the original, everything before it is `0`, and its length is the width, or the original length when that is larger |
| `OrderNumbers.Sequence` | app/Services/OrderService.php:25 | the sequence part is the id padded to four places: at least four characters, all digits |
| `OrderNumbers.Candidate` | app/Services/OrderService.php:25 | defines the proposed number `ORD-` + date + `-` + sequence |
| `OrderNumbers.CandidateLayout` | app/Services/OrderService.php:32 | a candidate consists of `ORD-`, the date, a dash and the sequence, at those positions |
| `OrderNumbers.StartId` | app/Services/OrderService.php:21-22 | the search starts at 1 when there is no order, and otherwise past the latest order's id |
| `OrderNumbers.GenerateOrderNumber` | app/Services/OrderService.php:19-42 | the search terminates after at most 100 further ids. If some id among start..start+99 is free, it returns the candidate for the first free one, which is not taken. Otherwise it returns the original candidate + `-` + the unique suffix |
| `OrderNumbers.GeneratedFirstFree` | app/Services/OrderService.php:28-34 | when the first candidate is free it is the one returned |
| `OrderNumbers.GeneratedUnique` | app/Services/OrderService.php:28-41 | the search's outcome is determined by its inputs |
| `OrderNumbers.ParseDecimalString` | app/Services/OrderService.php:25 | reading the rendered id gives the id back |
| `OrderNumbers.ParseLeadingZeros` | app/Services/OrderService.php:25 | the zero padding of `str_pad` does not change the value read |
| `OrderNumbers.SequenceRoundTrip` | app/Services/OrderService.php:25 | the padded sequence reads back as the id |
| `OrderNumbers.CandidateInjective` | app/Services/OrderService.php:30-33 | different ids give different candidates on the same date, so the search never probes a number twice |
| `OrderNumbers.DecimalStringNoLeadingZero` | app/Services/OrderService.php:25 | PHP's rendering of an id has no leading zero: an id of two or more digits starts with a non-zero digit |
| `OrderNumbers.DecimalStringLength` | app/Services/OrderService.php:25 | an id below 10^k has at most k digits |
| `OrderNumbers.CandidateShape` | tests/Unit/OrderServiceTest.php:40-41 | for an eight-digit date and an id up to 9999 the number matches `ORD-\d{8}-\d{4}` |
| `OrderService.Message` | app/Services/OrderService.php:56-225 | defines the text of each failure: the exceptions thrown at lines 56, 109, 113, 154, 188, 221 and 225, and the controller's "Order not found" (app/Http/Controllers/Api/OrderController.php:124) |
| `OrderService.MessageInjective` | app/Services/OrderService.php:56-225 | no two failures share a message, so a message identifies its error |
| `OrderService.IsTransition` | app/Services/OrderService.php:108-194 | defines the status changes the service can make, from its guards and assignments: draft to pending or approved (lines 108-126), pending to approved (153-162) and pending to rejected (187-194) |
| `OrderService.RequiresApproval` | tests/Unit/OrderTest.php:54-71 | defines `requiresApproval`: a total of at least 1000.00 |
| `OrderService.CanBeModified` | tests/Unit/OrderTest.php:76-101 | defines `canBeModified`: every status but `approved` |
| `OrderService.Validated` | app/Http/Controllers/Api/OrderController.php:78-79 | defines the request's item rules: every quantity at least 1 and every unit price at least 0.01 (one cent) |
| `OrderService.ValidatedTotalPositive` | app/Http/Controllers/Api/OrderController.php:78-79 | the items saved from a non-empty list of validated request items have a positive total |
| `OrderService.HistoryForAppend` | app/Services/OrderService.php:272-283 | appending an entry adds it to the history of its own order only |
| `OrderService.HistoryForAbsent` | app/Services/OrderService.php:88 | an order no entry refers to has an empty history |
| `OrderService.LedgerChainExtend` | app/Services/OrderService.php:118-132 | an entry for a legal transition out of the current status keeps the history a walk of the state machine |
| `OrderService.LedgerOther` | app/Services/OrderService.php:275 | an entry for another order leaves an order's history walk intact |
| `OrderService.LedgerNew` | app/Services/OrderService.php:88 | the creation entry is the whole history of a new order, from none to draft |
| `OrderService.LedgerStep` | app/Services/OrderService.php:159-166 | a transition entry extends the order's history walk to the new status |
| `OrderService.LedgerBounded` | app/Services/OrderService.php:106-206 | every transition moves strictly forward, so an order's history is no longer than its current stage allows (at most three entries), and it begins with the creation entry (none → draft) |
| `OrderService.CreatePreservesValid` | app/Services/OrderService.php:62-88 | adding a well-formed draft under the next id with its creation entry keeps the store invariant |
| `OrderService.TransitionPreservesValid` | app/Services/OrderService.php:116-135 | a legal status change with its one history entry keeps the store invariant |
| `OrderService.UpdatePreservesValid` | app/Services/OrderService.php:228-254 | replacing an order's content without a status change or history keeps the store invariant |
| `OrderService.ReplaceKeepsOrdersValid` | app/Services/OrderService.php:228-254 | replacing a stored order by a well-formed one under the same id keeps every order well formed |
| `OrderService.ReplaceKeepsEntriesStored` | app/Services/OrderService.php:228-254 | replacing a stored order keeps every history entry attached to a stored order |
| `OrderService.ReplaceKeepsLedgers` | app/Services/OrderService.php:228-254 | replacing a stored order by one with the same status keeps every history walk ending in its order's status |
| `OrderService.ValidOrderFacts` | app/Services/OrderService.php:84-198 | in a valid store each order's total is the sum of its item totals (line 84). It has an approver exactly when it is approved. Its history, written by the appends at lines 88, 132, 166 and 198, runs from creation to its current status in 1 to 3 entries |
| `OrderService.SaveItems` | app/Services/OrderService.php:70-81 | the saved items are the request items, in order, each with total quantity × unit price, and the accumulated total is their sum |
| `OrderService.OrderStore.LatestId` | app/Services/OrderService.php:21 | defines the latest order's id, or none for an empty table |
| `OrderService.OrderStore.LatestIdIsLatest` | app/Services/OrderService.php:21-22 | in a valid store the latest id is that of a stored order and no stored order has a higher one; there is no latest id exactly when the table is empty, which is when the search starts at 1 |
| `OrderService.Numbers` | app/Services/OrderService.php:30 | defines the numbers the uniqueness probe sees as taken: the numbers of the stored orders |
| `OrderService.NumbersAdd` | app/Services/OrderService.php:62-88 | storing a new order adds exactly its number to the taken numbers and keeps all the others; `CreateOrder` uses it for its taken-numbers ensures |
| `OrderService.NumbersKeep` | app/Services/OrderService.php:116-135 | replacing a stored order by one with the same number (a status change, or an update as at lines 228-254) leaves the taken numbers as they were; `Transition` and `UpdateOrder` use it for theirs |
| `OrderService.OrderStore.ExistingNumbers` | app/Services/OrderService.php:30 | the numbers the probe of `createOrder` sees are those of the store's current orders |
| `OrderService.OrderStore.AddStatusHistory` | app/Services/OrderService.php:272-283 | appends exactly one entry with the given from, to, actor and comment; every operation that changes a status records it through this method |
| `OrderService.OrderStore.CreateOrder` | app/Services/OrderService.php:53-96 | empty items fail with "Order must have at least one item" and nothing is written. Otherwise the order gets the next id and a generated number. It is a draft by the given user with the given notes and no approver. Its items are the input list in order, and its total is their sum. Exactly one entry (none → draft, no comment) is appended. The taken numbers gain exactly the new order's number |
| `OrderService.OrderStore.SubmitOrder` | app/Services/OrderService.php:106-140 | a non-draft fails, then an item-less order fails, and on failure nothing changes. Otherwise: at total ≥ 1000.00 the status becomes pending and the approver stays unset; below it the order is approved by the submitter at `now`. Exactly one entry from draft is appended. In a store where every order has items the empty-items error cannot occur |
| `OrderService.OrderStore.ApproveOrder` | app/Services/OrderService.php:151-174 | anything but a pending order fails with no change; otherwise status, approver and approval time are set and one entry with the comment is appended |
| `OrderService.OrderStore.RejectOrder` | app/Services/OrderService.php:185-206 | anything but a pending order fails with no change; otherwise only the status becomes rejected and one entry with the comment is appended |
| `OrderService.OrderStore.UpdateOrder` | app/Services/OrderService.php:218-260 | an approved order fails ("Approved orders cannot be modified"), then empty items fail. Otherwise all items are replaced by the input list and the total is their sum. The old notes are kept when none are given. Status and every other field stay, the taken numbers stay the same, and no history is appended |
| `OrderService.OrderStore.Transition` | app/Services/OrderService.php:129-132 | stores the new order value and appends the one matching entry through `AddStatusHistory`, keeping the invariant and the taken numbers; nothing else changes |
| `Scenarios.CreateComputesTotal` | tests/Unit/OrderServiceTest.php:50-82 | 2 × 100.00 + 1 × 50.00 gives a draft of 250.00 with both items in order; as the first order of the day in an empty table its number is `ORD-20261014-0001`, which has the shape checked at line 74 |
| `Scenarios.CreateValidatedIsPositive` | app/Http/Controllers/Api/OrderController.php:78-79 | in any valid store, creating an order from validated items (quantity ≥ 1, price ≥ 0.01) succeeds with a positive total |
| `Scenarios.CreateWithoutItemsFails` | tests/Unit/OrderServiceTest.php:87-96 | an empty item list fails with the message and writes no order and no history |
| `Scenarios.SubmitAboveThreshold` | tests/Unit/OrderServiceTest.php:101-124 | a 1500.00 draft becomes pending with no approver |
| `Scenarios.SubmitBelowThreshold` | tests/Unit/OrderServiceTest.php:129-152 | a 500.00 draft becomes approved by the submitter with an approval time |
| `Scenarios.ApproveDraftFails` | app/Services/OrderService.php:153-155 | approving a draft fails, the order stays a draft and its history keeps its one entry |
| `Scenarios.HistoryOrdering` | app/Services/OrderService.php:88-166 | create, submit and approve append one entry each (lines 88, 132 and 166), so the history has exactly three, in commit order, with the right from/to pairs and actors; the approve entry carries the comment as tests/Unit/OrderServiceTest.php:173-177 check it |
| `Scenarios.RejectRecordsComment` | tests/Unit/OrderServiceTest.php:183-202 | rejecting a pending order records the comment and sets no approver |
| `Scenarios.RejectedIsEditableButFinal` | app/Services/OrderService.php:231-252 | a rejected order can be updated and stays rejected (the update writes no status), and resubmitting it fails with "Only draft orders can be submitted" (app/Services/OrderService.php:108-110) |
| `Scenarios.UpdateApprovedFails` | tests/Unit/OrderServiceTest.php:207-229 | updating an approved order fails and leaves items and total as they were |
| `Scenarios.UpdateRecalculates` | tests/Unit/OrderServiceTest.php:234-277 | updating a draft gives the new notes, two items and a total of 350.00 |
| `Scenarios.NextOrderNumber` | tests/Unit/OrderServiceTest.php:29-45 | with `ORD-<date>-0001` taken by order 1 the next number is `ORD-<date>-0002` |
| `Scenarios.CalculateTotalPriceExample` | tests/Unit/OrderItemTest.php:44-58 | 3 × 100.00 gives 300.00 |
| `Scenarios.CreatingComputesTotal` | tests/Unit/OrderItemTest.php:63-77 | a new item saved without a total gets 2 × 150.00 = 300.00 |
| `Scenarios.CreatingKeepsGivenTotal` | app/Models/OrderItem.php:62 | a new item saved with an explicit non-zero total keeps it |
| `Scenarios.UpdatingRecalculates` | tests/Unit/OrderItemTest.php:82-105 | 2 × 100.00 becomes 3 × 100.00 = 300.00, then 3 × 150.00 = 450.00 |
| `Scenarios.UpdatingOtherFieldsKeepsTotal` | app/Models/OrderItem.php:68 | a save that changes neither factor leaves the total as it was |

## Left out

- Transactions (`DB::transaction`) and logging (`Log::error`): the model
  checks every guard before the first write instead. A failure inside the
  commit (a database error) has nowhere to happen in the model.
  The model writes the history entry before the order row, the reverse of
  the source's order. Both writes sit in one transaction, so no state
  between them can be observed.
- Concurrency, including the race between probing for a free order number
  and inserting the order. The existing numbers are a snapshot taken when
  the search starts. No uniqueness constraint or retry on conflict is
  modelled, and the suffixed fallback number is not checked.
- `Order::latest()` orders by creation time. The model takes the last id
  handed out, which the store invariant ties to a stored order with the
  highest id. That is the same order unless several are created within the
  same timestamp.
- Dates, clocks and `uniqid()` are opaque inputs. The history's
  `created_at` timestamp is not modelled. The source evaluates `date('Ymd')`
  again for every probe, so a search that runs across midnight builds its
  later candidates with the next day's date while the fallback keeps the
  first candidate. The model takes one date for the whole search.
- `OrderItems.OrderItem.OnCreating`: the guard is modelled on the numeric
  value (`!$item->total_price` is true for unset or zero). The framework's
  `decimal:2` cast, which could present a stored zero as the string
  `"0.00"`, is not modelled.
- Floating point: PHP multiplies a decimal-cast price as a float. The model
  uses whole cents, so every total is exact.
- Items keep no ids, so `updateOrder`'s "delete all, then reinsert"
  appears only as replacement of the whole item list.
- Soft delete and restore, the Eloquent relationships (`order()`,
  `changedBy()`), factories, seeders and the service provider. The HTTP
  controller is left out except for three of its rules: the `Order not found`
  lookup, as the `NotFound` result; the rejection comment, as a
  precondition; and the item validation (quantity at least 1, unit price at
  least 0.01), as the predicate `Validated`. Other request validation
  (string lengths, existing users) is not modelled. Laravel's `required`
  rule also refuses comments made only of whitespace; the model's
  precondition asks only for a non-empty comment.
- `updateOrder` takes a user id that it never uses; the model keeps the
  parameter and also ignores it.
- `requiresApproval` and `canBeModified` belong to an `Order` model file
  that is not part of this model. They are written from the unit tests:
  total ≥ 1000.00, and status other than `approved`.
