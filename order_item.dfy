/** The line item of an order (app/Models/OrderItem.php): the rule that a line's
    total is its quantity times its unit price, and the model events that
    recompute that total when an item is first saved and when it is saved again. */
module OrderItems {
  import opened Wrappers

  /** Amounts of money. The source casts prices to decimals with two places;
      here every amount is a whole number of cents. */
  type Cents = int

  /** The total of one line: quantity times unit price, exact in cents. */
  function LineTotal(quantity: int, unitPrice: Cents): (total: Cents)
  {
    quantity * unitPrice
  }

  /** A saved item as the order sees it: every column the service writes. */
  datatype ItemRow = ItemRow(
    productName: string,
    description: Option<string>,
    quantity: int,
    unitPrice: Cents,
    totalPrice: Cents)

  /** The line-total rule holds for a saved item. */
  predicate RowConsistent(r: ItemRow)
  {
    r.totalPrice == LineTotal(r.quantity, r.unitPrice)
  }

  /** The sum of the line totals of a list of items (zero for no items). */
  function SumTotals(rows: seq<ItemRow>): (total: Cents)
  {
    if rows == [] then 0 else rows[0].totalPrice + SumTotals(rows[1..])
  }

  /** Summing a concatenation sums the parts: what lets a loop accumulate the
      order total one item at a time. */
  lemma {:induction false} SumTotalsConcat(a: seq<ItemRow>, b: seq<ItemRow>)
    ensures SumTotals(a + b) == SumTotals(a) + SumTotals(b)
  {
    if a == [] {
      assert a + b == b;
    } else {
      assert (a + b)[1..] == a[1..] + b;
      SumTotalsConcat(a[1..], b);
    }
  }

  /** With quantities of at least one and positive prices, as the request
      validation admits them, every line total and the order total are
      positive. */
  lemma {:induction false} SumTotalsPositive(rows: seq<ItemRow>)
    requires rows != []
    requires forall k :: 0 <= k < |rows| ==> RowConsistent(rows[k])
    requires forall k :: 0 <= k < |rows| ==> rows[k].quantity >= 1 && rows[k].unitPrice >= 1
    ensures SumTotals(rows) >= 1
  {
    var r := rows[0];
    assert r.quantity * r.unitPrice >= 1 * r.unitPrice;
    if |rows| > 1 {
      SumTotalsPositive(rows[1..]);
    } else {
      assert rows[1..] == [];
    }
  }

  /** An Eloquent OrderItem model: its attributes, whether it has been
      stored, and the attribute values as last stored (what `isDirty`
      compares against). */
  class OrderItem {
    var productName: string
    var description: Option<string>
    var quantity: int
    var unitPrice: Cents
    var totalPrice: Option<Cents>
    /** True once the item has been inserted. */
    var persisted: bool
    var originalQuantity: int
    var originalUnitPrice: Cents
    var originalTotalPrice: Option<Cents>

    /** The total matches the line-total rule. */
    predicate Consistent()
      reads this
    {
      totalPrice == Some(LineTotal(quantity, unitPrice))
    }

    /** The line-total rule held when the item was last stored. */
    predicate SavedConsistent()
      reads this
    {
      originalTotalPrice == Some(LineTotal(originalQuantity, originalUnitPrice))
    }

    /** `isDirty(['quantity', 'unit_price'])`: one of the two factors differs
        from its stored value. */
    predicate IsPriceDirty()
      reads this
    {
      quantity != originalQuantity || unitPrice != originalUnitPrice
    }

    /** A new, unsaved item whose total has not been set. No attribute has a
        stored value yet. */
    constructor (productName: string, description: Option<string>, quantity: int, unitPrice: Cents)
      ensures this.productName == productName && this.description == description
      ensures this.quantity == quantity && this.unitPrice == unitPrice
      ensures totalPrice == None && !persisted
      ensures originalQuantity == 0 && originalUnitPrice == 0 && originalTotalPrice == None
    {
      this.productName := productName;
      this.description := description;
      this.quantity := quantity;
      this.unitPrice := unitPrice;
      totalPrice := None;
      persisted := false;
      originalQuantity := 0;
      originalUnitPrice := 0;
      originalTotalPrice := None;
    }

    /** The saved item as a row of its order. */
    function Row(): (r: ItemRow)
      reads this
      requires totalPrice.Some?
    {
      ItemRow(productName, description, quantity, unitPrice, totalPrice.value)
    }

    /** `calculateTotalPrice`: sets the total to quantity times unit price and
        touches no other attribute. */
    method CalculateTotalPrice()
      modifies this`totalPrice
      ensures Consistent()
    {
      totalPrice := Some(LineTotal(quantity, unitPrice));
    }

    /** The `creating` event: computes the total only when none was given
        (unset or zero); an explicitly supplied non-zero total is kept. */
    method OnCreating()
      modifies this`totalPrice
      ensures old(totalPrice) == None || old(totalPrice) == Some(0) ==> Consistent()
      ensures old(totalPrice) != None && old(totalPrice) != Some(0) ==> totalPrice == old(totalPrice)
    {
      if totalPrice == None || totalPrice == Some(0) {
        CalculateTotalPrice();
      }
    }

    /** The `updating` event: recomputes the total when quantity or unit price
        changed since the item was stored, and otherwise leaves it alone. */
    method OnUpdating()
      modifies this`totalPrice
      ensures old(IsPriceDirty()) ==> Consistent()
      ensures !old(IsPriceDirty()) ==> totalPrice == old(totalPrice)
      ensures old(SavedConsistent()) && old(totalPrice) == originalTotalPrice ==> Consistent()
    {
      if IsPriceDirty() {
        CalculateTotalPrice();
      }
    }

    /** `save()`: fires `creating` for a new item and `updating` for a stored
        one, then stores the attributes. */
    method Save()
      modifies this`totalPrice, this`persisted, this`originalQuantity, this`originalUnitPrice,
        this`originalTotalPrice
      ensures !old(persisted) && (old(totalPrice) == None || old(totalPrice) == Some(0)) ==> Consistent()
      ensures !old(persisted) && old(totalPrice) != None && old(totalPrice) != Some(0) ==>
        totalPrice == old(totalPrice)
      ensures old(persisted) && old(IsPriceDirty()) ==> Consistent()
      ensures old(persisted) && !old(IsPriceDirty()) ==> totalPrice == old(totalPrice)
      ensures old(persisted) && old(SavedConsistent()) && old(totalPrice) == old(originalTotalPrice) ==>
        Consistent()
      ensures persisted && !IsPriceDirty() && originalTotalPrice == totalPrice
    {
      if persisted {
        OnUpdating();
      } else {
        OnCreating();
      }
      persisted := true;
      originalQuantity := quantity;
      originalUnitPrice := unitPrice;
      originalTotalPrice := totalPrice;
    }
  }
}
