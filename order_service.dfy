/** The order lifecycle engine (app/Services/OrderService.php): orders move
    from draft through submission to approval or rejection, every status
    change is recorded in an append-only history, and an order's total is
    always the sum of its items' totals. */
module OrderService {
  import opened Wrappers
  import opened OrderItems
  import opened OrderNumbers

  type UserId = nat
  type OrderId = nat
  /** The value of `now()`, supplied by the caller. */
  type Timestamp = nat

  datatype Status = Draft | PendingApproval | Approved | Rejected

  /** 1000.00: orders at or above it need an explicit approval. */
  const ApprovalThreshold: Cents := 100000

  /** One item of a create or update request. */
  datatype ItemInput = ItemInput(
    productName: string,
    description: Option<string>,
    quantity: int,
    unitPrice: Cents)

  datatype Order = Order(
    id: OrderId,
    orderNumber: string,
    status: Status,
    notes: Option<string>,
    totalAmount: Cents,
    createdBy: UserId,
    approvedBy: Option<UserId>,
    approvedAt: Option<Timestamp>,
    items: seq<ItemRow>)

  /** `Order::requiresApproval`: the total is at least 1000.00. */
  predicate RequiresApproval(o: Order)
  {
    o.totalAmount >= ApprovalThreshold
  }

  /** `Order::canBeModified`: every status except `approved`. */
  predicate CanBeModified(o: Order)
  {
    o.status != Approved
  }

  /** One row of the status history: `fromStatus` is absent for the entry
      written when the order is created. */
  datatype HistoryEntry = HistoryEntry(
    orderId: OrderId,
    fromStatus: Option<Status>,
    toStatus: Status,
    changedBy: UserId,
    comments: Option<string>)

  /** The exceptions the service throws, and the lookup failure of its
      callers. */
  datatype Error =
    | NotFound
    | EmptyItems
    | NotDraft
    | NotPendingApprove
    | NotPendingReject
    | ApprovedImmutable

  function Message(e: Error): (m: string)
  {
    match e
    case NotFound => "Order not found"
    case EmptyItems => "Order must have at least one item"
    case NotDraft => "Only draft orders can be submitted"
    case NotPendingApprove => "Only pending orders can be approved"
    case NotPendingReject => "Only pending orders can be rejected"
    case ApprovedImmutable => "Approved orders cannot be modified"
  }

  /** Every error has its own message. */
  lemma MessageInjective(e1: Error, e2: Error)
    ensures Message(e1) == Message(e2) ==> e1 == e2
  {
  }

  /** The status changes the service can make. */
  predicate IsTransition(from: Status, to: Status)
  {
    || (from == Draft && (to == PendingApproval || to == Approved))
    || (from == PendingApproval && (to == Approved || to == Rejected))
  }

  /** A saved item built from one request item by the service's loop. */
  predicate RowOf(row: ItemRow, input: ItemInput)
  {
    && row.productName == input.productName
    && row.description == input.description
    && row.quantity == input.quantity
    && row.unitPrice == input.unitPrice
    && row.totalPrice == LineTotal(input.quantity, input.unitPrice)
  }

  /** The items of an order are the request items, in order, each with its
      line total. */
  predicate RowsOf(rows: seq<ItemRow>, inputs: seq<ItemInput>)
  {
    |rows| == |inputs| && forall k :: 0 <= k < |inputs| ==> RowOf(rows[k], inputs[k])
  }

  /** What holds of every stored order: the line-total rule for each item, the
      order total as the sum of the item totals, and an approver and approval
      time exactly when the order is approved. */
  ghost predicate WellFormed(o: Order, id: OrderId)
  {
    && o.id == id
    && (forall k :: 0 <= k < |o.items| ==> RowConsistent(o.items[k]))
    && o.totalAmount == SumTotals(o.items)
    && (o.approvedBy.Some? <==> o.status == Approved)
    && (o.approvedAt.Some? <==> o.status == Approved)
  }

  /** The history entries of one order, in the order they were written. */
  ghost function HistoryFor(h: seq<HistoryEntry>, id: OrderId): (r: seq<HistoryEntry>)
    decreases |h|
  {
    if h == [] then []
    else HistoryFor(h[..|h| - 1], id) + (if h[|h| - 1].orderId == id then [h[|h| - 1]] else [])
  }

  /** The history of an order is a walk through the state machine that
      starts with its creation as a draft and ends in its current status:
      the last entry arrives at `status` by a legal transition from the status
      the rest of the walk ends in. */
  ghost predicate LedgerChain(h: seq<HistoryEntry>, status: Status)
    decreases |h|
  {
    if |h| == 0 then false
    else
      var e := h[|h| - 1];
      && e.toStatus == status
      && if |h| == 1 then e.fromStatus == None && status == Draft
         else e.fromStatus.Some? && IsTransition(e.fromStatus.value, status) &&
              LedgerChain(h[..|h| - 1], e.fromStatus.value)
  }

  lemma HistoryForAppend(h: seq<HistoryEntry>, e: HistoryEntry, id: OrderId)
    ensures HistoryFor(h + [e], id) == HistoryFor(h, id) + (if e.orderId == id then [e] else [])
  {
    assert (h + [e])[..|h|] == h;
  }

  /** An order no entry refers to has no history. */
  lemma {:induction false} HistoryForAbsent(h: seq<HistoryEntry>, id: OrderId)
    requires forall i :: 0 <= i < |h| ==> h[i].orderId != id
    ensures HistoryFor(h, id) == []
    decreases |h|
  {
    if h != [] {
      HistoryForAbsent(h[..|h| - 1], id);
    }
  }

  /** Appending an entry for a legal transition out of the current status
      keeps the history a walk through the state machine. */
  lemma LedgerChainExtend(h: seq<HistoryEntry>, status: Status, e: HistoryEntry)
    requires LedgerChain(h, status)
    requires e.fromStatus == Some(status) && IsTransition(status, e.toStatus)
    ensures LedgerChain(h + [e], e.toStatus)
  {
    assert (h + [e])[..|h|] == h;
  }

  /** How far along the workflow a status is. */
  function Stage(status: Status): (stage: nat)
  {
    match status
    case Draft => 0
    case PendingApproval => 1
    case Approved => 2
    case Rejected => 2
  }

  /** Every transition moves an order strictly forward, so a walk is no
      longer than the stage it ends in allows: no order ever has more than
      three history entries (created, submitted, decided), and every walk
      begins with the creation entry. */
  lemma {:induction false} LedgerBounded(h: seq<HistoryEntry>, status: Status)
    requires LedgerChain(h, status)
    ensures |h| <= Stage(status) + 1 <= 3
    ensures h[0].fromStatus == None && h[0].toStatus == Draft
    decreases |h|
  {
    if |h| > 1 {
      var e := h[|h| - 1];
      var rest := h[..|h| - 1];
      LedgerBounded(rest, e.fromStatus.value);
      assert rest[0] == h[0];
    }
  }

  /** The invariant of the two tables: every order is well formed and has an
      id the table handed out, every history entry belongs to a stored order,
      and each order's history is a walk through the state machine ending in
      its current status. */
  ghost predicate StoreValid(orders: map<OrderId, Order>, history: seq<HistoryEntry>, lastId: nat)
  {
    OrdersValid(orders, lastId) && EntriesStored(orders, history) && LedgersValid(orders, history)
  }

  /** Every order is well formed under an id the table handed out, and the
      last id handed out belongs to a stored order. */
  ghost predicate OrdersValid(orders: map<OrderId, Order>, lastId: nat)
  {
    && (forall id :: id in orders ==> 1 <= id <= lastId && WellFormed(orders[id], id))
    && (lastId > 0 ==> lastId in orders)
  }

  /** Every history entry belongs to a stored order. */
  ghost predicate EntriesStored(orders: map<OrderId, Order>, history: seq<HistoryEntry>)
  {
    forall i :: 0 <= i < |history| ==> history[i].orderId in orders
  }

  /** Each order's history is a walk ending in its current status. */
  ghost predicate LedgersValid(orders: map<OrderId, Order>, history: seq<HistoryEntry>)
  {
    forall id :: id in orders ==> LedgerChain(HistoryFor(history, id), orders[id].status)
  }

  /** An entry for another order leaves an order's history as it was. */
  lemma LedgerOther(history: seq<HistoryEntry>, e: HistoryEntry, id: OrderId, status: Status)
    requires e.orderId != id && LedgerChain(HistoryFor(history, id), status)
    ensures LedgerChain(HistoryFor(history + [e], id), status)
  {
    HistoryForAppend(history, e, id);
    assert HistoryFor(history, id) + [] == HistoryFor(history, id);
  }

  /** The creation entry of an order nothing referred to is its whole history. */
  lemma LedgerNew(history: seq<HistoryEntry>, e: HistoryEntry)
    requires forall i :: 0 <= i < |history| ==> history[i].orderId != e.orderId
    requires e.fromStatus == None && e.toStatus == Draft
    ensures LedgerChain(HistoryFor(history + [e], e.orderId), Draft)
  {
    HistoryForAppend(history, e, e.orderId);
    HistoryForAbsent(history, e.orderId);
    assert HistoryFor(history + [e], e.orderId) == [e];
  }

  /** An entry for a legal transition extends the order's history. */
  lemma LedgerStep(history: seq<HistoryEntry>, e: HistoryEntry, status: Status)
    requires LedgerChain(HistoryFor(history, e.orderId), status)
    requires e.fromStatus == Some(status) && IsTransition(status, e.toStatus)
    ensures LedgerChain(HistoryFor(history + [e], e.orderId), e.toStatus)
  {
    HistoryForAppend(history, e, e.orderId);
    LedgerChainExtend(HistoryFor(history, e.orderId), status, e);
  }

  /** Creating a well-formed draft under the next id, with its creation entry,
      keeps the invariant. */
  lemma CreatePreservesValid(orders: map<OrderId, Order>, history: seq<HistoryEntry>, lastId: nat,
                             o: Order, e: HistoryEntry)
    requires StoreValid(orders, history, lastId)
    requires o.id == lastId + 1 && WellFormed(o, o.id) && o.status == Draft
    requires e.orderId == o.id && e.fromStatus == None && e.toStatus == Draft
    ensures StoreValid(orders[o.id := o], history + [e], lastId + 1)
  {
    var orders', history' := orders[o.id := o], history + [e];
    forall i | 0 <= i < |history| ensures history[i].orderId != o.id {
      assert history[i].orderId in orders;
    }
    forall oid | oid in orders'
      ensures LedgerChain(HistoryFor(history', oid), orders'[oid].status)
    {
      if oid == o.id {
        LedgerNew(history, e);
      } else {
        LedgerOther(history, e, oid, orders[oid].status);
      }
    }
  }

  /** Moving an order along a legal transition, with approval fields set
      exactly when it becomes approved and the matching history entry, keeps
      the invariant. */
  lemma TransitionPreservesValid(orders: map<OrderId, Order>, history: seq<HistoryEntry>, lastId: nat,
                                 id: OrderId, to: Status, approvedBy: Option<UserId>,
                                 approvedAt: Option<Timestamp>, e: HistoryEntry)
    requires StoreValid(orders, history, lastId) && id in orders
    requires IsTransition(orders[id].status, to)
    requires approvedBy.Some? <==> to == Approved
    requires approvedAt.Some? <==> to == Approved
    requires e.orderId == id && e.fromStatus == Some(orders[id].status) && e.toStatus == to
    ensures StoreValid(orders[id := orders[id].(status := to, approvedBy := approvedBy, approvedAt := approvedAt)],
                       history + [e], lastId)
  {
    var o' := orders[id].(status := to, approvedBy := approvedBy, approvedAt := approvedAt);
    var orders', history' := orders[id := o'], history + [e];
    assert WellFormed(o', id);
    forall oid | oid in orders'
      ensures LedgerChain(HistoryFor(history', oid), orders'[oid].status)
    {
      if oid == id {
        LedgerStep(history, e, orders[oid].status);
      } else {
        LedgerOther(history, e, oid, orders[oid].status);
      }
    }
  }

  /** Replacing the content of an order without changing its status, and
      without writing history, keeps the invariant. */
  lemma UpdatePreservesValid(orders: map<OrderId, Order>, history: seq<HistoryEntry>, lastId: nat,
                             id: OrderId, notes: Option<string>, rows: seq<ItemRow>)
    requires StoreValid(orders, history, lastId) && id in orders
    requires forall k :: 0 <= k < |rows| ==> RowConsistent(rows[k])
    ensures StoreValid(orders[id := orders[id].(notes := notes, totalAmount := SumTotals(rows), items := rows)],
                       history, lastId)
  {
    var o' := orders[id].(notes := notes, totalAmount := SumTotals(rows), items := rows);
    assert WellFormed(o', id);
    ReplaceKeepsOrdersValid(orders, lastId, id, o');
    ReplaceKeepsEntriesStored(orders, history, id, o');
    ReplaceKeepsLedgers(orders, history, id, o');
  }

  lemma ReplaceKeepsOrdersValid(orders: map<OrderId, Order>, lastId: nat, id: OrderId, o': Order)
    requires OrdersValid(orders, lastId) && id in orders && WellFormed(o', id)
    ensures OrdersValid(orders[id := o'], lastId)
  {
    var orders' := orders[id := o'];
    forall oid | oid in orders' ensures 1 <= oid <= lastId && WellFormed(orders'[oid], oid) {
      if oid != id {
        assert orders'[oid] == orders[oid];
      }
    }
  }

  lemma ReplaceKeepsEntriesStored(orders: map<OrderId, Order>, history: seq<HistoryEntry>, id: OrderId, o': Order)
    requires EntriesStored(orders, history) && id in orders
    ensures EntriesStored(orders[id := o'], history)
  {
    forall i | 0 <= i < |history| ensures history[i].orderId in orders[id := o'] {
      assert history[i].orderId in orders;
    }
  }

  lemma ReplaceKeepsLedgers(orders: map<OrderId, Order>, history: seq<HistoryEntry>, id: OrderId, o': Order)
    requires LedgersValid(orders, history) && id in orders && o'.status == orders[id].status
    ensures LedgersValid(orders[id := o'], history)
  {
    var orders' := orders[id := o'];
    forall oid | oid in orders'
      ensures LedgerChain(HistoryFor(history, oid), orders'[oid].status)
    {
      assert orders'[oid].status == orders[oid].status;
    }
  }

  /** What a caller may rely on for any stored order: its total is the sum of
      its item totals, it has an approver exactly when approved, and its
      history starts with its creation, ends in its current status and holds
      at most three entries. */
  lemma ValidOrderFacts(orders: map<OrderId, Order>, history: seq<HistoryEntry>, lastId: nat, id: OrderId)
    requires StoreValid(orders, history, lastId) && id in orders
    ensures orders[id].totalAmount == SumTotals(orders[id].items)
    ensures orders[id].approvedBy.Some? <==> orders[id].status == Approved
    ensures var h := HistoryFor(history, id);
      && 1 <= |h| <= 3
      && h[0].fromStatus == None && h[0].toStatus == Draft
      && h[|h| - 1].toStatus == orders[id].status
  {
    LedgerBounded(HistoryFor(history, id), orders[id].status);
  }

  /** The order numbers of a table of orders. */
  function Numbers(orders: map<OrderId, Order>): (numbers: set<string>)
  {
    set id | id in orders :: orders[id].orderNumber
  }

  /** Storing an order under a new id adds exactly its number to the taken
      ones. */
  lemma NumbersAdd(orders: map<OrderId, Order>, id: OrderId, o: Order)
    requires id !in orders
    ensures Numbers(orders[id := o]) == Numbers(orders) + {o.orderNumber}
  {
    var orders' := orders[id := o];
    forall n | n in Numbers(orders) ensures n in Numbers(orders') {
      var oid :| oid in orders && orders[oid].orderNumber == n;
      assert orders'[oid] == orders[oid];
    }
    assert orders'[id].orderNumber == o.orderNumber;
  }

  /** Replacing a stored order by one with the same number leaves the taken
      numbers as they were: what transitions and updates do. */
  lemma NumbersKeep(orders: map<OrderId, Order>, id: OrderId, o: Order)
    requires id in orders && o.orderNumber == orders[id].orderNumber
    ensures Numbers(orders[id := o]) == Numbers(orders)
  {
    var orders' := orders[id := o];
    forall n | n in Numbers(orders) ensures n in Numbers(orders') {
      var oid :| oid in orders && orders[oid].orderNumber == n;
      if oid != id {
        assert orders'[oid] == orders[oid];
      } else {
        assert orders'[id].orderNumber == n;
      }
    }
    forall n | n in Numbers(orders') ensures n in Numbers(orders) {
      var oid :| oid in orders' && orders'[oid].orderNumber == n;
      if oid != id {
        assert orders[oid] == orders'[oid];
      } else {
        assert orders[id].orderNumber == n;
      }
    }
  }

  /** Every order in the table has at least one item. */
  ghost predicate NonEmptyOrders(orders: map<OrderId, Order>)
  {
    forall id :: id in orders ==> orders[id].items != []
  }

  /** Storing an order with items keeps every order non-empty. */
  lemma StoreKeepsNonEmpty(orders: map<OrderId, Order>, id: OrderId, o: Order)
    requires NonEmptyOrders(orders) && o.items != []
    ensures NonEmptyOrders(orders[id := o])
  {
  }

  /** Request items as the request validation admits them: quantities of at
      least one and prices of at least one cent. */
  predicate Validated(inputs: seq<ItemInput>)
  {
    forall k :: 0 <= k < |inputs| ==> inputs[k].quantity >= 1 && inputs[k].unitPrice >= 1
  }

  /** Saved from a non-empty list of validated request items, an order's
      total is positive. */
  lemma ValidatedTotalPositive(rows: seq<ItemRow>, inputs: seq<ItemInput>)
    requires RowsOf(rows, inputs) && inputs != [] && Validated(inputs)
    ensures SumTotals(rows) >= 1
  {
    assert forall k :: 0 <= k < |rows| ==> RowOf(rows[k], inputs[k]);
    SumTotalsPositive(rows);
  }

  /** The `foreach` of createOrder and updateOrder: builds and saves one
      OrderItem per request item and adds up the saved totals. */
  method SaveItems(inputs: seq<ItemInput>) returns (rows: seq<ItemRow>, total: Cents)
    ensures RowsOf(rows, inputs)
    ensures total == SumTotals(rows)
  {
    rows := [];
    total := 0;
    var i := 0;
    while i < |inputs|
      invariant 0 <= i <= |inputs|
      invariant RowsOf(rows, inputs[..i])
      invariant total == SumTotals(rows)
    {
      var input := inputs[i];
      var item := new OrderItem(input.productName, input.description, input.quantity, input.unitPrice);
      item.CalculateTotalPrice();
      item.Save();
      var row := item.Row();
      SumTotalsConcat(rows, [row]);
      assert SumTotals([row]) == row.totalPrice;
      rows := rows + [row];
      total := total + row.totalPrice;
      i := i + 1;
    }
    assert inputs[..i] == inputs;
  }

  /** The orders table and the status history table. `lastId` is the last id
      the table handed out. */
  class OrderStore {
    var orders: map<OrderId, Order>
    var history: seq<HistoryEntry>
    var lastId: nat

    ghost predicate Valid()
      reads this
    {
      StoreValid(orders, history, lastId)
    }

    /** Every stored order has at least one item. */
    ghost predicate AllHaveItems()
      reads this
    {
      NonEmptyOrders(orders)
    }

    constructor ()
      ensures Valid() && AllHaveItems()
      ensures orders == map[] && history == [] && lastId == 0
    {
      orders := map[];
      history := [];
      lastId := 0;
    }

    /** The id of the latest order, or none when no order was created. */
    function LatestId(): (latest: Option<OrderId>)
      reads this
    {
      if lastId == 0 then None else Some(lastId)
    }

    /** In a valid store no stored order has a higher id than the latest. */
    lemma LatestIdIsLatest()
      requires Valid()
      ensures forall id :: id in orders ==> LatestId().Some? && id <= LatestId().value
      ensures LatestId().Some? ==> LatestId().value in orders
      ensures LatestId() == None <==> orders == map[]
    {
      if orders != map[] {
        var id :| id in orders;
        assert 1 <= id <= lastId;
      }
    }

    /** The order numbers already taken. */
    function ExistingNumbers(): (numbers: set<string>)
      reads this
    {
      Numbers(orders)
    }

    /** `addStatusHistory`: appends one entry and changes nothing else. */
    method AddStatusHistory(orderId: OrderId, fromStatus: Option<Status>, toStatus: Status,
                            userId: UserId, comments: Option<string>)
      returns (entry: HistoryEntry)
      modifies this`history
      ensures entry == HistoryEntry(orderId, fromStatus, toStatus, userId, comments)
      ensures history == old(history) + [entry]
    {
      entry := HistoryEntry(orderId, fromStatus, toStatus, userId, comments);
      history := history + [entry];
    }

    /** `createOrder`. `date` and `uniq` stand for `date('Ymd')` and
        `uniqid()`. The empty-items guard comes before any write. */
    method CreateOrder(notes: Option<string>, items: seq<ItemInput>, userId: UserId,
                       date: string, uniq: string)
      returns (r: Result<Order, Error>)
      requires Valid()
      modifies this`orders, this`history, this`lastId
      ensures Valid()
      ensures old(AllHaveItems()) ==> AllHaveItems()
      ensures items == [] ==>
        r == Err(EmptyItems) && orders == old(orders) && history == old(history) && lastId == old(lastId)
      ensures items != [] ==> r.Ok?
      ensures r.Ok? ==> ExistingNumbers() == old(ExistingNumbers()) + {r.value.orderNumber}
      ensures r.Ok? ==>
        var o := r.value;
        && o.id == old(lastId) + 1 && o.id !in old(orders)
        && lastId == o.id && orders == old(orders)[o.id := o]
        && Generated(o.orderNumber, date, StartId(old(LatestId())), old(ExistingNumbers()), uniq)
        && o.status == Draft && o.notes == notes && o.createdBy == userId
        && o.approvedBy == None && o.approvedAt == None
        && RowsOf(o.items, items)
        && o.totalAmount == SumTotals(o.items)
        && history == old(history) + [HistoryEntry(o.id, None, Draft, userId, None)]
    {
      if items == [] {
        r := Err(EmptyItems);
        return;
      }
      var number := GenerateOrderNumber(LatestId(), date, ExistingNumbers(), uniq);
      var rows, total := SaveItems(items);
      var id := lastId + 1;
      var o := Order(id, number, Draft, notes, total, userId, None, None, rows);
      NumbersAdd(orders, id, o);
      ghost var orders0, history0, lastId0 := orders, history, lastId;
      var entry := AddStatusHistory(id, None, Draft, userId, None);
      lastId := id;
      orders := orders[id := o];
      CreatePreservesValid(orders0, history0, lastId0, o, entry);
      r := Ok(o);
    }

    /** `submitOrder`: a draft with items becomes `pending_approval` when it
        needs approval, and is otherwise approved at once by the submitter. */
    method SubmitOrder(id: OrderId, userId: UserId, now: Timestamp) returns (r: Result<Order, Error>)
      requires Valid()
      modifies this
      ensures Valid()
      ensures old(AllHaveItems()) ==> AllHaveItems() && r != Err(EmptyItems)
      ensures lastId == old(lastId)
      ensures id !in old(orders) ==> r == Err(NotFound)
      ensures id in old(orders) && old(orders[id]).status != Draft ==> r == Err(NotDraft)
      ensures id in old(orders) && old(orders[id]).status == Draft && old(orders[id]).items == [] ==>
        r == Err(EmptyItems)
      ensures r.Err? ==> orders == old(orders) && history == old(history)
      ensures id in old(orders) && old(orders[id]).status == Draft && old(orders[id]).items != [] ==>
        var o := old(orders[id]);
        && r.Ok? && orders == old(orders)[id := r.value]
        && (RequiresApproval(o) ==> r.value == o.(status := PendingApproval))
        && (!RequiresApproval(o) ==>
              r.value == o.(status := Approved, approvedBy := Some(userId), approvedAt := Some(now)))
        && history == old(history) + [HistoryEntry(id, Some(Draft), r.value.status, userId, None)]
    {
      if id !in orders {
        r := Err(NotFound);
        return;
      }
      var o := orders[id];
      if o.status != Draft {
        r := Err(NotDraft);
        return;
      }
      if |o.items| == 0 {
        r := Err(EmptyItems);
        return;
      }
      var o';
      if RequiresApproval(o) {
        o' := Transition(id, PendingApproval, o.approvedBy, o.approvedAt, userId, None);
      } else {
        o' := Transition(id, Approved, Some(userId), Some(now), userId, None);
      }
      r := Ok(o');
    }

    /** `approveOrder`: a pending order becomes approved by the given user. */
    method ApproveOrder(id: OrderId, userId: UserId, comments: Option<string>, now: Timestamp)
      returns (r: Result<Order, Error>)
      requires Valid()
      modifies this
      ensures Valid()
      ensures old(AllHaveItems()) ==> AllHaveItems()
      ensures lastId == old(lastId)
      ensures id !in old(orders) ==> r == Err(NotFound)
      ensures id in old(orders) && old(orders[id]).status != PendingApproval ==> r == Err(NotPendingApprove)
      ensures r.Err? ==> orders == old(orders) && history == old(history)
      ensures id in old(orders) && old(orders[id]).status == PendingApproval ==>
        var o := old(orders[id]);
        && r == Ok(o.(status := Approved, approvedBy := Some(userId), approvedAt := Some(now)))
        && orders == old(orders)[id := r.value]
        && history == old(history) + [HistoryEntry(id, Some(PendingApproval), Approved, userId, comments)]
    {
      if id !in orders {
        r := Err(NotFound);
        return;
      }
      var o := orders[id];
      if o.status != PendingApproval {
        r := Err(NotPendingApprove);
        return;
      }
      var o' := Transition(id, Approved, Some(userId), Some(now), userId, comments);
      r := Ok(o');
    }

    /** `rejectOrder`: a pending order becomes rejected; only its status
        changes. The comment is required by the request validation. */
    method RejectOrder(id: OrderId, userId: UserId, comments: string) returns (r: Result<Order, Error>)
      requires Valid()
      requires |comments| > 0
      modifies this
      ensures Valid()
      ensures old(AllHaveItems()) ==> AllHaveItems()
      ensures lastId == old(lastId)
      ensures id !in old(orders) ==> r == Err(NotFound)
      ensures id in old(orders) && old(orders[id]).status != PendingApproval ==> r == Err(NotPendingReject)
      ensures r.Err? ==> orders == old(orders) && history == old(history)
      ensures id in old(orders) && old(orders[id]).status == PendingApproval ==>
        var o := old(orders[id]);
        && r == Ok(o.(status := Rejected))
        && orders == old(orders)[id := r.value]
        && history == old(history) + [HistoryEntry(id, Some(PendingApproval), Rejected, userId, Some(comments))]
    {
      if id !in orders {
        r := Err(NotFound);
        return;
      }
      var o := orders[id];
      if o.status != PendingApproval {
        r := Err(NotPendingReject);
        return;
      }
      var o' := Transition(id, Rejected, o.approvedBy, o.approvedAt, userId, Some(comments));
      r := Ok(o');
    }

    /** `updateOrder`: replaces the notes (kept when none are given) and all
        items, recomputes the total, and writes no history. */
    method UpdateOrder(id: OrderId, notes: Option<string>, items: seq<ItemInput>, userId: UserId)
      returns (r: Result<Order, Error>)
      requires Valid()
      modifies this`orders
      ensures Valid()
      ensures old(AllHaveItems()) ==> AllHaveItems()
      ensures lastId == old(lastId) && history == old(history)
      ensures ExistingNumbers() == old(ExistingNumbers())
      ensures id !in old(orders) ==> r == Err(NotFound)
      ensures id in old(orders) && !CanBeModified(old(orders[id])) ==> r == Err(ApprovedImmutable)
      ensures id in old(orders) && CanBeModified(old(orders[id])) && items == [] ==> r == Err(EmptyItems)
      ensures r.Err? ==> orders == old(orders)
      ensures id in old(orders) && CanBeModified(old(orders[id])) && items != [] ==>
        var o := old(orders[id]);
        && r.Ok? && orders == old(orders)[id := r.value]
        && r.value == o.(notes := if notes.Some? then notes else o.notes,
                         totalAmount := r.value.totalAmount, items := r.value.items)
        && RowsOf(r.value.items, items)
        && r.value.totalAmount == SumTotals(r.value.items)
    {
      if id !in orders {
        r := Err(NotFound);
        return;
      }
      var o := orders[id];
      if !CanBeModified(o) {
        r := Err(ApprovedImmutable);
        return;
      }
      if items == [] {
        r := Err(EmptyItems);
        return;
      }
      var rows, total := SaveItems(items);
      var notes' := if notes.Some? then notes else o.notes;
      assert forall k :: 0 <= k < |rows| ==> RowConsistent(rows[k]) by {
        assert forall k :: 0 <= k < |rows| ==> RowOf(rows[k], items[k]);
      }
      var o' := o.(notes := notes', totalAmount := total, items := rows);
      ghost var orders0 := orders;
      orders := orders[id := o'];
      UpdatePreservesValid(orders0, history, lastId, id, notes', rows);
      NumbersKeep(orders0, id, o');
      if NonEmptyOrders(orders0) {
        StoreKeepsNonEmpty(orders0, id, o');
      }
      r := Ok(o');
    }

    /** Moves an order along a legal transition: sets its status and its
        approval fields, stores it, and records the change in the history. */
    method Transition(id: OrderId, to: Status, approvedBy: Option<UserId>, approvedAt: Option<Timestamp>,
                      userId: UserId, comments: Option<string>)
      returns (o': Order)
      requires Valid() && id in orders
      requires IsTransition(orders[id].status, to)
      requires approvedBy.Some? <==> to == Approved
      requires approvedAt.Some? <==> to == Approved
      modifies this`orders, this`history
      ensures Valid()
      ensures old(AllHaveItems()) ==> AllHaveItems()
      ensures lastId == old(lastId)
      ensures ExistingNumbers() == old(ExistingNumbers())
      ensures o' == old(orders[id]).(status := to, approvedBy := approvedBy, approvedAt := approvedAt)
      ensures orders == old(orders)[id := o']
      ensures history == old(history) + [HistoryEntry(id, Some(old(orders[id]).status), to, userId, comments)]
    {
      var e := HistoryEntry(id, Some(orders[id].status), to, userId, comments);
      o' := orders[id].(status := to, approvedBy := approvedBy, approvedAt := approvedAt);
      ghost var orders0, history0 := orders, history;
      var entry := AddStatusHistory(id, e.fromStatus, to, userId, comments);
      orders := orders[id := o'];
      TransitionPreservesValid(orders0, history0, lastId, id, to, approvedBy, approvedAt, entry);
      NumbersKeep(orders0, id, o');
      if NonEmptyOrders(orders0) {
        StoreKeepsNonEmpty(orders0, id, o');
      }
    }
  }
}
