/**
 * The order form's state while staff edit an order, and the callbacks that
 * update it: choosing a line's product captures the product's price,
 * editing a line's quantity normalises the line's price, and any change to
 * the list of lines writes the recomputed total into the read-only total
 * field.
 */
module OrderForms {
  import opened Wrappers
  import opened OrderTotals
  import opened OrderSubmission

  /** The product prices the form can look up, by product id. */
  type Catalog = map<ProductId, Cents>

  /** Looks up the price of the chosen product; nothing is found for no choice or an unknown id. */
  function FindPrice(catalog: Catalog, product: Option<ProductId>): (r: Option<Cents>)
    ensures r.Some? <==> product.Some? && product.value in catalog
    ensures r.Some? ==> r.value == catalog[product.value]
  {
    match product
    case None => None
    case Some(id) => if id in catalog then Some(catalog[id]) else None
  }

  class OrderForm {
    var header: OrderHeader
    var items: seq<LineItem>
    /** The read-only total field: only the items callback writes it. */
    var totalPrice: Cents

    /** The total field shows what the current lines add up to. */
    ghost predicate Consistent()
      reads this
    {
      totalPrice == Total(items)
    }

    /**
     * A blank form: nothing chosen, `defaultLines` fresh lines in the items
     * repeater, and the total at its default of zero, which is what those
     * lines add up to.
     */
    constructor (defaultLines: nat)
      ensures header == OrderHeader(None, None, None)
      ensures items == seq(defaultLines, _ => NewLine)
      ensures totalPrice == 0
      ensures Consistent()
    {
      header := OrderHeader(None, None, None);
      items := seq(defaultLines, _ => NewLine);
      totalPrice := 0;
    }

    /** The items callback: sums the lines and writes the sum into the total field. */
    method RecomputeTotal()
      modifies this`totalPrice
      ensures totalPrice == Total(items)
      ensures Consistent()
    {
      var total := ComputeTotal(items);
      totalPrice := total;
    }

    /**
     * The product callback of line `i`: the line takes the chosen product
     * and, when the product is found, its current price; when it is not
     * found the line keeps the price it had. No other line, no quantity and
     * not the total changes.
     */
    method SelectProduct(i: nat, product: Option<ProductId>, catalog: Catalog)
      requires i < |items|
      modifies this`items
      ensures |items| == |old(items)|
      ensures forall k | 0 <= k < |items| && k != i :: items[k] == old(items[k])
      ensures items[i].productId == product
      ensures items[i].quantity == old(items[i].quantity)
      ensures product.Some? && product.value in catalog ==> items[i].price == Some(catalog[product.value])
      ensures !(product.Some? && product.value in catalog) ==> items[i].price == old(items[i].price)
    {
      var line := items[i].(productId := product);
      var found := FindPrice(catalog, product);
      if found.Some? {
        line := line.(price := found);
      }
      items := items[i := line];
    }

    /**
     * The quantity callback of line `i`: the line takes the new quantity and
     * its price is set again to its own value, so only a missing price
     * changes (to zero). No other line and not the total changes.
     */
    method SetQuantity(i: nat, quantity: Option<int>)
      requires i < |items|
      modifies this`items
      ensures |items| == |old(items)|
      ensures forall k | 0 <= k < |items| && k != i :: items[k] == old(items[k])
      ensures items[i].productId == old(items[i].productId)
      ensures items[i].quantity == quantity
      ensures old(items[i].price).Some? ==> items[i].price == old(items[i].price)
      ensures old(items[i].price).None? ==> items[i].price == Some(0)
    {
      var price := items[i].price.GetOr(0);
      items := items[i := items[i].(quantity := quantity, price := Some(price))];
    }

    /**
     * The repeater's add action: a fresh line is appended, then the items
     * callback runs. The fresh line has no price, so the new total is what
     * the earlier lines add up to.
     */
    method AddLine()
      modifies this`items, this`totalPrice
      ensures items == old(items) + [NewLine]
      ensures totalPrice == Total(old(items))
      ensures Consistent()
    {
      items := items + [NewLine];
      RecomputeTotal();
      TotalAppend(old(items), NewLine);
    }

    /**
     * The repeater's delete action on line `i`, then the items callback: the
     * new total is the old lines' total less what line `i` contributed.
     */
    method RemoveLine(i: nat)
      requires i < |items|
      modifies this`items, this`totalPrice
      ensures items == old(items[..i] + items[i + 1..])
      ensures totalPrice == Total(old(items)) - LineAmount(old(items[i]))
      ensures Consistent()
    {
      items := items[..i] + items[i + 1..];
      RecomputeTotal();
      TotalRemove(old(items), i);
    }

    /**
     * Saving the form. The stored total is the total field as it stands;
     * when the field is consistent with the lines, it is the sum over the
     * stored items.
     */
    method Save() returns (r: Result<Order, FormError>)
      ensures r == Submit(header, items, totalPrice)
      ensures r.Ok? ==> r.value.totalPrice == totalPrice
      ensures r.Ok? && Consistent() ==> r.value.totalPrice == ItemsTotal(r.value.items)
    {
      r := Submit(header, items, totalPrice);
      if r.Ok? && totalPrice == Total(items) {
        SavedTotalIsItemSum(header, items);
      }
    }
  }

  /**
   * A session on a new form: one product at 12.50 bought twice gives 25.00;
   * adding a product at 7.25 once gives 32.25. A later change to the
   * first product's catalog price leaves its captured price alone.
   */
  method ExampleSession() {
    var catalog: Catalog := map[1 := 1250, 2 := 725];
    var form := new OrderForm(1);
    form.SelectProduct(0, Some(1), catalog);
    form.SetQuantity(0, Some(2));
    form.RecomputeTotal();
    assert form.items == [LineItem(Some(1), Some(1250), Some(2))];
    assert form.totalPrice == 2500;
    catalog := catalog[1 := 1399];
    form.AddLine();
    form.SelectProduct(1, Some(2), catalog);
    form.RecomputeTotal();
    assert form.items[1] == LineItem(Some(2), Some(725), Some(1));
    TotalAppend([form.items[0]], form.items[1]);
    assert form.items == [form.items[0]] + [form.items[1]];
    assert form.totalPrice == 3225;
    assert form.items[0].price == Some(1250);
  }
}
