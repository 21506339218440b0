/** The order summary panel (`OrderPanel`) both checkout pages render: the
    totals it derives from the cart, the requests its buttons send back to
    the page, and when the finalize button is enabled. */
module OrderPanel {
  import opened Wrappers
  import opened Catalog
  import Cart
  import Money
  import Seqs
  import CreateOrder
  import CreateOrderMov

  const Taxes := 0.0
  const HomeDelivery := 0.0

  /** The panel's own `items.reduce((sum, item) => sum + price * (item.qty || 0), 0)`:
      a left fold from `acc` that adds the real product of each line's unit
      price and quantity. A cart quantity is a number, so `|| 0` changes
      nothing. */
  function PanelSum(acc: real, items: seq<Cart.Line>): real
    decreases items
  {
    if items == [] then acc
    else PanelSum(acc + Term(NumericPrice(items[0].item), items[0].qty), items[1..])
  }

  /** One step of the panel's reduce: `getNumericPrice(item) * item.qty`. */
  function Term(price: real, qty: int): real
  {
    price * (qty as real)
  }

  /** The panel's fold, started anywhere, adds the page's subtotal to its
      start: the panel and the page agree on every cart. */
  lemma {:induction false} PanelSumIsSubtotal(acc: real, items: seq<Cart.Line>)
    ensures PanelSum(acc, items) == acc + Cart.Subtotal(items)
    decreases items
  {
    if items != [] {
      var price := NumericPrice(items[0].item);
      TermIsTimes(price, items[0].qty);
      PanelSumIsSubtotal(acc + Term(price, items[0].qty), items[1..]);
    }
  }

  lemma TermIsTimes(price: real, qty: int)
    ensures Term(price, qty) == Money.Times(price, qty)
  {
    Money.TimesIsProduct(price, qty);
  }

  /** `grandTotal = subtotal + taxes + homeDelivery`, both fixed at 0. */
  function GrandTotal(items: seq<Cart.Line>): (r: real)
    ensures r == Cart.Subtotal(items)
  {
    PanelSumIsSubtotal(0.0, items);
    PanelSum(0.0, items) + Taxes + HomeDelivery
  }

  /** The count in "Subtotal(n product)": `items.length`. */
  function ProductCount(items: seq<Cart.Line>): (r: nat)
  {
    |items|
  }

  /** An illustration of ProductCount: the count is of lines, not of
      units. */
  lemma CountIsLines(p: Product)
    ensures ProductCount([Cart.Line(p, 3)]) == 1
    ensures Cart.QtyOf([Cart.Line(p, 3)], p.id) == 3
  {
    assert Cart.HasId(p.id)(Cart.Line(p, 3));
  }

  /** What a line's buttons ask of the page. */
  datatype Request = QtyChange(id: ProductId, newQty: int) | RemoveItem(id: ProductId)

  /** "-": `onQtyChange(item.id, (item.qty || 0) - 1)`. */
  function MinusRequest(l: Cart.Line): Request { QtyChange(l.item.id, l.qty - 1) }

  /** "+": `onQtyChange(item.id, (item.qty || 0) + 1)`. */
  function PlusRequest(l: Cart.Line): Request { QtyChange(l.item.id, l.qty + 1) }

  /** The trash button: `onRemove(item.id)`. */
  function TrashRequest(l: Cart.Line): Request { RemoveItem(l.item.id) }

  /** What either page does with a request (`handleQtyChange`, `handleRemove`). */
  function Apply(c: seq<Cart.Line>, r: Request): seq<Cart.Line>
  {
    match r
    case QtyChange(id, q) => Cart.ChangeQty(c, id, q)
    case RemoveItem(id) => Cart.Remove(c, id)
  }

  /** On a valid cart, "+" on a line has the effect of adding that product again. */
  lemma PlusIsAdd(c: seq<Cart.Line>, i: int)
    requires Cart.Valid(c) && 0 <= i < |c|
    ensures Apply(c, PlusRequest(c[i])) == Cart.Add(c, c[i].item)
  {
    var id := c[i].item.id;
    var q := c[i].qty + 1;
    assert q > 0;
    calc {
      Apply(c, PlusRequest(c[i]));
      Seqs.Map(c, Cart.SetLine(id, q));
    == { SameQty(c, i); BumpIsSet(c, id, 1, q); }
      Seqs.Map(c, Cart.BumpLine(id, 1));
    == { Cart.LookupUnique(c, id, i); }
      Cart.Add(c, c[i].item);
    }
  }

  /** In a cart with unique ids, every line with line `i`'s id holds its
      quantity. */
  lemma SameQty(c: seq<Cart.Line>, i: int)
    requires Cart.UniqueIds(c) && 0 <= i < |c|
    ensures forall j :: 0 <= j < |c| && c[j].item.id == c[i].item.id ==> c[j].qty == c[i].qty
  {
  }

  /** Raising the lines with an id by `d` writes `q` into them when each of
      them held `q - d`. */
  lemma BumpIsSet(c: seq<Cart.Line>, id: ProductId, d: int, q: int)
    requires forall j :: 0 <= j < |c| && c[j].item.id == id ==> c[j].qty + d == q
    ensures Seqs.Map(c, Cart.BumpLine(id, d)) == Seqs.Map(c, Cart.SetLine(id, q))
  {
    var a := Seqs.Map(c, Cart.BumpLine(id, d));
    var b := Seqs.Map(c, Cart.SetLine(id, q));
    forall j | 0 <= j < |c|
      ensures a[j] == b[j]
    {
      SameEffect(c[j], id, d, q);
    }
    assert a == b;
  }

  lemma SameEffect(l: Cart.Line, id: ProductId, d: int, q: int)
    requires l.item.id == id ==> l.qty + d == q
    ensures Cart.BumpLine(id, d)(l) == Cart.SetLine(id, q)(l)
  {
  }

  /** On a valid cart, "-" on a line has the effect of the mobile page's
      decrease: the line loses a unit, or goes when it had one. */
  lemma MinusIsDecrease(c: seq<Cart.Line>, i: int)
    requires Cart.Valid(c) && 0 <= i < |c|
    ensures Apply(c, MinusRequest(c[i])) == Cart.Decrease(c, c[i].item.id)
  {
    var id := c[i].item.id;
    Cart.LookupUnique(c, id, i);
    if c[i].qty > 1 {
      SameQty(c, i);
      BumpIsSet(c, id, -1, c[i].qty - 1);
    }
  }

  /** The trash button takes that product out and leaves every other
      quantity as it was. */
  lemma TrashRemovesLine(c: seq<Cart.Line>, i: int, x: ProductId)
    requires 0 <= i < |c|
    ensures Cart.QtyOf(Apply(c, TrashRequest(c[i])), x) == if x == c[i].item.id then 0 else Cart.QtyOf(c, x)
  {
    Cart.RemoveQty(c, c[i].item.id, x);
  }

  /** Whatever the panel asks, a valid cart stays valid. */
  lemma RequestsKeepValid(c: seq<Cart.Line>, r: Request)
    requires Cart.Valid(c)
    ensures Cart.Valid(Apply(c, r))
  {
    match r
    case QtyChange(id, q) => Cart.ChangeQtyValid(c, id, q);
    case RemoveItem(id) => Cart.RemoveValid(c, id);
  }

  /** `disabled={items.length === 0 || !selectedPartner || isSubmitting}`. */
  predicate FinalizeEnabled(items: seq<Cart.Line>, selectedPartner: Option<Partner>, isSubmitting: bool)
  {
    !(|items| == 0 || selectedPartner.None? || isSubmitting)
  }

  /** The button is enabled exactly when nothing is being submitted and the
      page's own validation would pass, on either page. */
  lemma FinalizeEnabledIff(items: seq<Cart.Line>, selectedPartner: Option<Partner>, isSubmitting: bool)
    ensures FinalizeEnabled(items, selectedPartner, isSubmitting)
            <==> !isSubmitting && CreateOrder.Validation(selectedPartner, items).None?
    ensures FinalizeEnabled(items, selectedPartner, isSubmitting)
            <==> !isSubmitting && CreateOrderMov.Validation(selectedPartner, items).None?
  {
  }
}
