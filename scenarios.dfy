/** Concrete runs of the lifecycle and of the item events, most of them as
    the repository's unit tests describe them and a few as the service and
    model code dictate, proved from the contracts of the model alone. */
module Scenarios {
  import opened Wrappers
  import opened OrderItems
  import opened OrderNumbers
  import opened OrderService

  const Today := "20261014"
  const Alice: UserId := 1
  const Bob: UserId := 2

  /** A draft with one item of the given price, created in a new store. */
  method NewDraft(unitPrice: Cents) returns (store: OrderStore, o: Order)
    ensures fresh(store) && store.Valid() && store.AllHaveItems()
    ensures store.orders == map[o.id := o]
    ensures o.status == Draft && o.totalAmount == unitPrice
    ensures store.history == [HistoryEntry(o.id, None, Draft, Alice, None)]
  {
    store := new OrderStore();
    var r := store.CreateOrder(None, [ItemInput("Product", None, 1, unitPrice)], Alice, Today, "x");
    o := r.value;
    assert o.items[1..] == [];
  }

  /** Two items of 2 x 100.00 and 1 x 50.00 make a draft of 250.00 by the
      creating user, with both items in the order given. */
  method CreateComputesTotal() returns (o: Order)
    ensures o.status == Draft && o.createdBy == Alice
    ensures |o.items| == 2 && o.items[0].productName == "Product 1" && o.items[1].productName == "Product 2"
    ensures o.totalAmount == 25000
    ensures o.orderNumber == "ORD-20261014-0001"
  {
    var store := new OrderStore();
    var items := [ItemInput("Product 1", Some("Description 1"), 2, 10000),
                  ItemInput("Product 2", Some("Description 2"), 1, 5000)];
    ghost var taken := store.ExistingNumbers();
    var r := store.CreateOrder(Some("Test order"), items, Alice, Today, "x");
    o := r.value;
    assert RowOf(o.items[0], items[0]) && RowOf(o.items[1], items[1]);
    TwoItemTotal(o.items);
    FirstOrderNumber(o.orderNumber, taken);
  }

  /** In an empty table the search returns the first candidate of the day. */
  lemma FirstOrderNumber(number: string, taken: set<string>)
    requires taken == {} && Generated(number, Today, 1, taken, "x")
    ensures number == "ORD-20261014-0001"
  {
    GeneratedFirstFree(number, Today, 1, taken, "x");
    assert Zeros(3) == "000";
  }

  lemma TwoItemTotal(rows: seq<ItemRow>)
    requires |rows| == 2
    ensures SumTotals(rows) == rows[0].totalPrice + rows[1].totalPrice
  {
    var tail := rows[1..];
    assert tail[0] == rows[1] && tail[1..] == [];
    assert SumTotals(tail) == rows[1].totalPrice + SumTotals(tail[1..]);
  }

  /** In any valid store, an order created from request items as the request
      validation admits them gets a positive total. */
  method CreateValidatedIsPositive(store: OrderStore, notes: Option<string>, items: seq<ItemInput>,
                                   userId: UserId, date: string, uniq: string)
    returns (r: Result<Order, Error>)
    requires store.Valid() && items != [] && Validated(items)
    modifies store
    ensures r.Ok? && r.value.totalAmount >= 1
  {
    r := store.CreateOrder(notes, items, userId, date, uniq);
    ValidatedTotalPositive(r.value.items, items);
  }

  /** An order without items is refused and nothing is written. */
  method CreateWithoutItemsFails() returns (r: Result<Order, Error>, count: nat)
    ensures r.Err? && Message(r.error) == "Order must have at least one item"
    ensures count == 0
  {
    var store := new OrderStore();
    r := store.CreateOrder(Some("Test order"), [], Alice, Today, "x");
    count := |store.orders| + |store.history|;
  }

  /** Submitting a draft of 1500.00 leaves it waiting for approval, with no
      approver. */
  method SubmitAboveThreshold() returns (o: Order)
    ensures o.status == PendingApproval && o.approvedBy == None && o.approvedAt == None
  {
    var store, draft := NewDraft(150000);
    var r := store.SubmitOrder(draft.id, Alice, 7);
    o := r.value;
  }

  /** Submitting a draft of 500.00 approves it at once, by the submitter. */
  method SubmitBelowThreshold() returns (o: Order)
    ensures o.status == Approved && o.approvedBy == Some(Bob) && o.approvedAt == Some(7)
  {
    var store, draft := NewDraft(50000);
    var r := store.SubmitOrder(draft.id, Bob, 7);
    o := r.value;
  }

  /** Approving a draft fails and writes no history. */
  method ApproveDraftFails() returns (r: Result<Order, Error>, status: Status, h: seq<HistoryEntry>)
    ensures r == Err(NotPendingApprove) && status == Draft && |h| == 1
  {
    var store, draft := NewDraft(50000);
    r := store.ApproveOrder(draft.id, Bob, None, 7);
    status := store.orders[draft.id].status;
    h := store.history;
  }

  /** Create, submit and approve leave three entries in commit order, each
      with the right pair of statuses, actor and comment. */
  method HistoryOrdering() returns (h: seq<HistoryEntry>)
    ensures |h| == 3
    ensures h[0].fromStatus == None && h[0].toStatus == Draft && h[0].changedBy == Alice
    ensures h[1].fromStatus == Some(Draft) && h[1].toStatus == PendingApproval && h[1].changedBy == Alice
    ensures h[2].fromStatus == Some(PendingApproval) && h[2].toStatus == Approved
    ensures h[2].changedBy == Bob && h[2].comments == Some("Approved by test")
  {
    var store, draft := NewDraft(150000);
    var _ := store.SubmitOrder(draft.id, Alice, 7);
    var _ := store.ApproveOrder(draft.id, Bob, Some("Approved by test"), 8);
    h := store.history;
  }

  /** A draft of the given price, submitted by Alice, now waiting for approval. */
  method NewPending(unitPrice: Cents) returns (store: OrderStore, o: Order)
    requires unitPrice >= ApprovalThreshold
    ensures fresh(store) && store.Valid()
    ensures store.orders == map[o.id := o]
    ensures o.status == PendingApproval && o.approvedBy == None && o.totalAmount == unitPrice && o.items != []
  {
    var draft;
    store, draft := NewDraft(unitPrice);
    assert RequiresApproval(draft);
    var r := store.SubmitOrder(draft.id, Alice, 7);
    o := r.value;
    assert o == draft.(status := PendingApproval);
  }

  /** Rejecting a pending order records the comment and sets no approver. */
  method RejectRecordsComment() returns (rejected: Order, entry: HistoryEntry)
    ensures rejected.status == Rejected && rejected.approvedBy == None && rejected.approvedAt == None
    ensures entry == HistoryEntry(rejected.id, Some(PendingApproval), Rejected, Bob, Some("Rejected by test"))
  {
    var store, pending := NewPending(150000);
    var r := store.RejectOrder(pending.id, Bob, "Rejected by test");
    rejected := r.value;
    entry := store.history[|store.history| - 1];
  }

  /** A rejected order can still be edited, but it can never be submitted
      again: submission needs a draft. */
  method RejectedIsEditableButFinal() returns (update: Result<Order, Error>, resubmit: Result<Order, Error>)
    ensures update.Ok? && update.value.status == Rejected
    ensures resubmit == Err(NotDraft)
  {
    var store, pending := NewPending(150000);
    var _ := store.RejectOrder(pending.id, Bob, "Rejected by test");
    update := store.UpdateOrder(pending.id, None, [ItemInput("Product", None, 2, 100000)], Alice);
    resubmit := store.SubmitOrder(pending.id, Alice, 9);
  }

  /** An approved order cannot be updated; items and total stay. */
  method UpdateApprovedFails() returns (r: Result<Order, Error>, before: Order, after: Order)
    ensures r.Err? && Message(r.error) == "Approved orders cannot be modified"
    ensures after.items == before.items && after.totalAmount == before.totalAmount
  {
    var store, draft := NewDraft(50000);
    var s := store.SubmitOrder(draft.id, Alice, 7);
    before := s.value;
    r := store.UpdateOrder(draft.id, Some("Updated notes"), [ItemInput("Updated Product", None, 1, 10000)], Alice);
    after := store.orders[draft.id];
  }

  /** Updating a draft replaces its items and recomputes the total:
      3 x 100.00 + 1 x 50.00 = 350.00. */
  method UpdateRecalculates() returns (o: Order)
    ensures o.status == Draft && o.notes == Some("Updated notes")
    ensures |o.items| == 2 && o.totalAmount == 35000
  {
    var store, draft := NewDraft(20000);
    var items := [ItemInput("Updated Product 1", Some("Updated Description 1"), 3, 10000),
                  ItemInput("Updated Product 2", Some("Updated Description 2"), 1, 5000)];
    var r := store.UpdateOrder(draft.id, Some("Updated notes"), items, Alice);
    o := r.value;
    assert RowOf(o.items[0], items[0]) && RowOf(o.items[1], items[1]);
    TwoItemTotal(o.items);
  }

  /** With order 1 holding `ORD-<today>-0001`, the next number is
      `ORD-<today>-0002`, different from it. */
  method NextOrderNumber() returns (number: string)
    ensures number == "ORD-20261014-0002"
  {
    var taken := Candidate(Today, 1);
    number := GenerateOrderNumber(Some(1), Today, {taken}, "x");
    assert Candidate(Today, 2) !in {taken} by {
      if Candidate(Today, 2) == taken { CandidateInjective(Today, 2, 1); }
    }
    GeneratedFirstFree(number, Today, 2, {taken}, "x");
    assert Zeros(3) == "000";
  }

  /** `calculateTotalPrice` on 3 x 100.00 gives 300.00. */
  method CalculateTotalPriceExample() returns (total: Option<Cents>)
    ensures total == Some(30000)
  {
    var item := new OrderItem("Test Product", None, 3, 10000);
    item.CalculateTotalPrice();
    total := item.totalPrice;
  }

  /** Saving a new item without a total computes it: 2 x 150.00 = 300.00. */
  method CreatingComputesTotal() returns (total: Option<Cents>)
    ensures total == Some(30000)
  {
    var item := new OrderItem("Product", None, 2, 15000);
    item.Save();
    total := item.totalPrice;
  }

  /** Saving a new item with an explicit non-zero total keeps that total. */
  method CreatingKeepsGivenTotal() returns (total: Option<Cents>)
    ensures total == Some(12345)
  {
    var item := new OrderItem("Product", None, 2, 15000);
    item.totalPrice := Some(12345);
    item.Save();
    total := item.totalPrice;
  }

  /** Changing the quantity and then the unit price of a stored item
      recomputes its total each time: 2 x 100.00, then 3 x 100.00 = 300.00,
      then 3 x 150.00 = 450.00. */
  method UpdatingRecalculates() returns (first: Option<Cents>, second: Option<Cents>)
    ensures first == Some(30000) && second == Some(45000)
  {
    var item := new OrderItem("Product", None, 2, 10000);
    item.totalPrice := Some(20000);
    item.Save();
    item.quantity := 3;
    item.Save();
    first := item.totalPrice;
    item.unitPrice := 15000;
    item.Save();
    second := item.totalPrice;
  }

  /** A save that changes neither factor leaves the total alone, even one
      set by hand. */
  method UpdatingOtherFieldsKeepsTotal() returns (total: Option<Cents>)
    ensures total == Some(99)
  {
    var item := new OrderItem("Product", None, 2, 10000);
    item.Save();
    item.productName := "Renamed";
    item.totalPrice := Some(99);
    item.Save();
    total := item.totalPrice;
  }
}
