/** The shopping cart of the two order-entry pages: the updaters handed to
    `setCart` (add, decrease, remove, change quantity), the quantity lookup
    by id, and the subtotal and amount in cents. Both pages use the same
    updaters; only the mobile page offers `Decrease`.

    The invariant the updaters keep is `Valid`: product ids are unique and
    every quantity is at least 1. */
module Cart {
  import opened Wrappers
  import Seqs
  import Money
  import opened Catalog

  /** A cart line: the product as it was when first added, and a quantity. */
  datatype Line = Line(item: Product, qty: int)

  function LineId(l: Line): ProductId { l.item.id }

  /** The ids of the lines, in cart order. */
  function Ids(c: seq<Line>): (r: seq<ProductId>)
    ensures |r| == |c|
    ensures forall i :: 0 <= i < |c| ==> r[i] == c[i].item.id
  {
    Seqs.Map(c, LineId)
  }

  predicate UniqueIds(c: seq<Line>)
  {
    forall i, j :: 0 <= i < j < |c| ==> c[i].item.id != c[j].item.id
  }

  predicate Valid(c: seq<Line>)
  {
    UniqueIds(c) && forall i :: 0 <= i < |c| ==> c[i].qty >= 1
  }

  function HasId(id: ProductId): Line -> bool { (l: Line) => l.item.id == id }
  function LacksId(id: ProductId): Line -> bool { (l: Line) => l.item.id != id }
  function BumpLine(id: ProductId, delta: int): Line -> Line
  {
    (l: Line) => if l.item.id == id then l.(qty := l.qty + delta) else l
  }
  function SetLine(id: ProductId, q: int): Line -> Line
  {
    (l: Line) => if l.item.id == id then l.(qty := q) else l
  }

  /** `cart.find(i => i.id === id)`. */
  function Lookup(c: seq<Line>, id: ProductId): Option<Line>
  {
    Seqs.Find(c, HasId(id))
  }

  /** `cart.find(i => i.id === id)?.qty ?? 0`. */
  function QtyOf(c: seq<Line>, id: ProductId): int
  {
    match Lookup(c, id)
    case Some(l) => l.qty
    case None => 0
  }

  /** `prev.filter(i => i.id !== id)`. */
  function Without(c: seq<Line>, id: ProductId): seq<Line>
  {
    Seqs.Filter(c, LacksId(id))
  }

  /** `handleAdd`: a product already in the cart has its line's quantity
      raised by one where it stands; a new product is appended with quantity 1. */
  function Add(c: seq<Line>, p: Product): seq<Line>
  {
    if Lookup(c, p.id).Some? then Seqs.Map(c, BumpLine(p.id, 1))
    else c + [Line(p, 1)]
  }

  /** `handleDecrease` (mobile page): an absent id changes nothing, a line with
      quantity 1 or less is removed, any other line loses one unit. */
  function Decrease(c: seq<Line>, id: ProductId): seq<Line>
  {
    match Lookup(c, id)
    case None => c
    case Some(l) => if l.qty <= 1 then Without(c, id) else Seqs.Map(c, BumpLine(id, -1))
  }

  /** `handleRemove`. */
  function Remove(c: seq<Line>, id: ProductId): seq<Line>
  {
    Without(c, id)
  }

  /** `handleQtyChange`: a quantity of 0 or less removes the line; any other
      quantity is written into the line with that id. */
  function ChangeQty(c: seq<Line>, id: ProductId, q: int): seq<Line>
  {
    if q <= 0 then Without(c, id) else Seqs.Map(c, SetLine(id, q))
  }

  /** One line's contribution: unit price times quantity. */
  function LineTotal(l: Line): real
  {
    Money.Times(NumericPrice(l.item), l.qty)
  }

  /** The `reduce` over the cart: the sum of the line totals. */
  function Subtotal(c: seq<Line>): real
  {
    if c == [] then 0.0 else LineTotal(c[0]) + Subtotal(c[1..])
  }

  /** `computeAmountInCents`. */
  function AmountInCents(c: seq<Line>): (r: int)
    ensures Subtotal(c) * 100.0 - 0.5 < r as real <= Subtotal(c) * 100.0 + 0.5
  {
    Money.Cents(Subtotal(c))
  }

  // ---------------------------------------------------------------------
  // Lookups after each primitive update

  lemma {:induction false} QtyOfBump(c: seq<Line>, id: ProductId, d: int, x: ProductId)
    ensures QtyOf(Seqs.Map(c, BumpLine(id, d)), x)
            == QtyOf(c, x) + (if x == id && Lookup(c, id).Some? then d else 0)
  {
    if c != [] {
      var r := Seqs.Map(c, BumpLine(id, d));
      assert r[1..] == Seqs.Map(c[1..], BumpLine(id, d));
      QtyOfBump(c[1..], id, d, x);
    }
  }

  lemma {:induction false} QtyOfSet(c: seq<Line>, id: ProductId, q: int, x: ProductId)
    ensures QtyOf(Seqs.Map(c, SetLine(id, q)), x)
            == if x == id && Lookup(c, id).Some? then q else QtyOf(c, x)
  {
    if c != [] {
      var r := Seqs.Map(c, SetLine(id, q));
      assert r[1..] == Seqs.Map(c[1..], SetLine(id, q));
      QtyOfSet(c[1..], id, q, x);
    }
  }

  lemma {:induction false} QtyOfWithout(c: seq<Line>, id: ProductId, x: ProductId)
    ensures QtyOf(Without(c, id), x) == if x == id then 0 else QtyOf(c, x)
  {
    if x == id {
      assert Lookup(Without(c, id), x).None?;
    } else if c != [] {
      QtyOfWithout(c[1..], id, x);
      if c[0].item.id != id {
        assert Without(c, id)[1..] == Without(c[1..], id);
      }
    }
  }

  lemma {:induction false} QtyOfAppendNew(c: seq<Line>, l: Line, x: ProductId)
    requires Lookup(c, l.item.id).None?
    ensures QtyOf(c + [l], x) == if x == l.item.id then l.qty else QtyOf(c, x)
  {
    if c == [] {
      assert c + [l] == [l];
    } else {
      assert (c + [l])[1..] == c[1..] + [l];
      QtyOfAppendNew(c[1..], l, x);
    }
  }

  // ---------------------------------------------------------------------
  // Quantities after each updater

  /** Adding raises the product's quantity by one and leaves every other
      product's quantity alone, whether or not the product was in the cart. */
  lemma AddQty(c: seq<Line>, p: Product, x: ProductId)
    ensures QtyOf(Add(c, p), x) == QtyOf(c, x) + (if x == p.id then 1 else 0)
  {
    if Lookup(c, p.id).Some? {
      QtyOfBump(c, p.id, 1, x);
    } else {
      QtyOfAppendNew(c, Line(p, 1), x);
    }
  }

  /** Decreasing lowers the product's quantity by one, down to absence. */
  lemma DecreaseQty(c: seq<Line>, id: ProductId, x: ProductId)
    ensures QtyOf(Decrease(c, id), x)
            == if x != id then QtyOf(c, x)
               else if QtyOf(c, id) <= 1 then 0
               else QtyOf(c, id) - 1
  {
    match Lookup(c, id)
    case None =>
    case Some(l) =>
      if l.qty <= 1 {
        QtyOfWithout(c, id, x);
      } else {
        QtyOfBump(c, id, -1, x);
      }
  }

  /** Removing makes the product absent and leaves every other quantity alone. */
  lemma RemoveQty(c: seq<Line>, id: ProductId, x: ProductId)
    ensures QtyOf(Remove(c, id), x) == if x == id then 0 else QtyOf(c, x)
  {
    QtyOfWithout(c, id, x);
  }

  /** A quantity change sets the quantity of a product already in the cart,
      removes it when the new quantity is 0 or less, and never adds one. */
  lemma ChangeQtyQty(c: seq<Line>, id: ProductId, q: int, x: ProductId)
    ensures QtyOf(ChangeQty(c, id, q), x)
            == if x != id then QtyOf(c, x)
               else if q <= 0 || Lookup(c, id).None? then 0
               else q
  {
    if q <= 0 {
      QtyOfWithout(c, id, x);
    } else {
      QtyOfSet(c, id, q, x);
    }
  }

  // ---------------------------------------------------------------------
  // The cart invariant

  lemma {:induction false} WithoutUnique(c: seq<Line>, id: ProductId)
    requires UniqueIds(c)
    ensures UniqueIds(Without(c, id))
  {
    if c != [] {
      var t := Without(c[1..], id);
      WithoutUnique(c[1..], id);
      if c[0].item.id != id {
        var r := [c[0]] + t;
        forall j | 1 <= j < |r| ensures r[0].item.id != r[j].item.id {
          assert r[j] == t[j - 1] && t[j - 1] in c[1..];
          var k :| 0 <= k < |c[1..]| && c[1..][k] == t[j - 1];
          assert c[k + 1] == t[j - 1];
        }
        forall i, j | 0 <= i < j < |r| ensures r[i].item.id != r[j].item.id {
          if i > 0 {
            assert r[i] == t[i - 1] && r[j] == t[j - 1];
          }
        }
      }
    }
  }

  lemma WithoutValid(c: seq<Line>, id: ProductId)
    requires Valid(c)
    ensures Valid(Without(c, id))
  {
    WithoutUnique(c, id);
    var r := Without(c, id);
    forall i | 0 <= i < |r| ensures r[i].qty >= 1 {
      assert r[i] in c;
    }
  }

  /** The line found for an id in a cart with unique ids is the only line
      with that id. */
  lemma LookupUnique(c: seq<Line>, id: ProductId, i: int)
    requires UniqueIds(c) && 0 <= i < |c| && c[i].item.id == id
    ensures Lookup(c, id) == Some(c[i])
  {
    assert c[i] in c;
    var l := Lookup(c, id).value;
    var k :| 0 <= k < |c| && c[k] == l;
    if k < i {
      assert c[k].item.id != c[i].item.id;
    } else if i < k {
      assert c[i].item.id != c[k].item.id;
    }
  }

  lemma AddValid(c: seq<Line>, p: Product)
    requires Valid(c)
    ensures Valid(Add(c, p))
  {
    if Lookup(c, p.id).None? {
      forall i | 0 <= i < |c| ensures c[i].item.id != p.id {
        assert c[i] in c;
      }
    }
  }

  lemma DecreaseValid(c: seq<Line>, id: ProductId)
    requires Valid(c)
    ensures Valid(Decrease(c, id))
  {
    match Lookup(c, id)
    case None =>
    case Some(l) =>
      if l.qty <= 1 {
        WithoutValid(c, id);
      } else {
        var r := Seqs.Map(c, BumpLine(id, -1));
        forall i | 0 <= i < |c| ensures r[i].qty >= 1 {
          if c[i].item.id == id {
            LookupUnique(c, id, i);
          }
        }
      }
  }

  lemma RemoveValid(c: seq<Line>, id: ProductId)
    requires Valid(c)
    ensures Valid(Remove(c, id))
  {
    WithoutValid(c, id);
  }

  lemma ChangeQtyValid(c: seq<Line>, id: ProductId, q: int)
    requires Valid(c)
    ensures Valid(ChangeQty(c, id, q))
  {
    if q <= 0 {
      WithoutValid(c, id);
    }
  }

  // ---------------------------------------------------------------------
  // Order of the lines

  /** Adding keeps every line where it is and keeps the product stored in an
      existing line; a new product goes at the end. */
  lemma AddOrder(c: seq<Line>, p: Product)
    ensures Lookup(c, p.id).Some? ==> Ids(Add(c, p)) == Ids(c)
    ensures Lookup(c, p.id).None? ==> Ids(Add(c, p)) == Ids(c) + [p.id]
    ensures forall i :: 0 <= i < |c| ==> Add(c, p)[i].item == c[i].item
    ensures Lookup(c, p.id).None? ==> Add(c, p)[|c|] == Line(p, 1)
  {
  }

  /** Removing keeps the remaining lines, unchanged and in their order. */
  lemma RemoveOrder(c: seq<Line>, id: ProductId)
    ensures Seqs.IsSubseq(Remove(c, id), c)
    ensures id !in Ids(Remove(c, id))
    ensures forall l :: l in c && l.item.id != id ==> l in Remove(c, id)
  {
    Seqs.FilterIsSubseq(c, LacksId(id));
    var r := Remove(c, id);
    forall i | 0 <= i < |r| ensures Ids(r)[i] != id {
      assert r[i] in r;
    }
  }

  /** A positive quantity change keeps every line and its product in place. */
  lemma ChangeQtyOrder(c: seq<Line>, id: ProductId, q: int)
    requires q > 0
    ensures Ids(ChangeQty(c, id, q)) == Ids(c)
    ensures forall i :: 0 <= i < |c| ==> ChangeQty(c, id, q)[i].item == c[i].item
  {
  }

  // ---------------------------------------------------------------------
  // Decrease undoes Add

  /** On a valid cart, one decrease undoes one add. */
  lemma AddThenDecrease(c: seq<Line>, p: Product)
    requires Valid(c)
    ensures Decrease(Add(c, p), p.id) == c
  {
    var a := Add(c, p);
    if Lookup(c, p.id).Some? {
      var l := Lookup(c, p.id).value;
      QtyOfBump(c, p.id, 1, p.id);
      assert Lookup(a, p.id).value.qty == l.qty + 1 >= 2;
      var r := Seqs.Map(a, BumpLine(p.id, -1));
      assert forall i :: 0 <= i < |c| ==> r[i] == c[i];
    } else {
      var n := Line(p, 1);
      QtyOfAppendNew(c, n, p.id);
      forall l | l in c ensures LacksId(p.id)(l) {
        assert !HasId(p.id)(l);
      }
      Seqs.FilterAll(c, LacksId(p.id));
      Seqs.FilterAppend(c, [n], LacksId(p.id));
      assert Seqs.Filter([n], LacksId(p.id)) == [];
    }
  }

  // ---------------------------------------------------------------------
  // Totals

  lemma {:induction false} SubtotalAppend(a: seq<Line>, b: seq<Line>)
    ensures Subtotal(a + b) == Subtotal(a) + Subtotal(b)
  {
    if a == [] {
      assert a + b == b;
    } else {
      assert (a + b)[1..] == a[1..] + b;
      SubtotalAppend(a[1..], b);
    }
  }

  lemma SubtotalThree(a: seq<Line>, l: Line, b: seq<Line>)
    ensures Subtotal(a + [l] + b) == Subtotal(a) + LineTotal(l) + Subtotal(b)
  {
    SubtotalAppend(a + [l], b);
    SubtotalAppend(a, [l]);
    assert [l][1..] == [];
  }

  /** No line other than line `i` has line `i`'s id. */
  predicate IdOnlyAt(c: seq<Line>, i: int)
    requires 0 <= i < |c|
  {
    forall j :: 0 <= j < |c| && j != i ==> c[j].item.id != c[i].item.id
  }

  /** When only line `i` has its id, bumping that id changes exactly one line. */
  lemma BumpShape(c: seq<Line>, i: int, d: int)
    requires 0 <= i < |c| && IdOnlyAt(c, i)
    ensures Seqs.Map(c, BumpLine(c[i].item.id, d))
            == c[..i] + [Line(c[i].item, c[i].qty + d)] + c[i + 1..]
  {
    var r := Seqs.Map(c, BumpLine(c[i].item.id, d));
    var s := c[..i] + [Line(c[i].item, c[i].qty + d)] + c[i + 1..];
    assert |r| == |s|;
    forall j | 0 <= j < |c| ensures r[j] == s[j] {
      if j != i {
        assert c[j].item.id != c[i].item.id;
        assert s[j] == c[j];
      }
    }
  }

  /** When only line `i` has its id, bumping that id changes the subtotal by
      the line's unit price times the change. */
  lemma SubtotalBump(c: seq<Line>, i: int, d: int)
    requires 0 <= i < |c| && IdOnlyAt(c, i)
    ensures Subtotal(Seqs.Map(c, BumpLine(c[i].item.id, d)))
            == Subtotal(c) + Money.Times(NumericPrice(c[i].item), d)
  {
    BumpShape(c, i, d);
    SubtotalRequantify(c, i, d);
  }

  /** Changing one line's quantity by `d` changes the subtotal by its unit
      price times `d`. */
  lemma SubtotalRequantify(c: seq<Line>, i: int, d: int)
    requires 0 <= i < |c|
    ensures Subtotal(c[..i] + [Line(c[i].item, c[i].qty + d)] + c[i + 1..])
            == Subtotal(c) + Money.Times(NumericPrice(c[i].item), d)
  {
    SubtotalReplace(c, i, Line(c[i].item, c[i].qty + d));
    Money.TimesAdd(NumericPrice(c[i].item), c[i].qty, d);
  }

  /** Replacing one line changes the subtotal by the difference of the two
      line totals. */
  lemma SubtotalReplace(c: seq<Line>, i: int, l: Line)
    requires 0 <= i < |c|
    ensures Subtotal(c[..i] + [l] + c[i + 1..]) == Subtotal(c) - LineTotal(c[i]) + LineTotal(l)
  {
    SplitAt(c, i);
    SubtotalThree(c[..i], l, c[i + 1..]);
    SubtotalThree(c[..i], c[i], c[i + 1..]);
  }

  lemma SplitAt(c: seq<Line>, i: int)
    requires 0 <= i < |c|
    ensures c == c[..i] + [c[i]] + c[i + 1..]
  {
  }


  lemma {:induction false} SubtotalWithout(c: seq<Line>, id: ProductId)
    requires UniqueIds(c)
    ensures Subtotal(Without(c, id))
            == Subtotal(c) - (match Lookup(c, id) case Some(l) => LineTotal(l) case None => 0.0)
  {
    if c != [] {
      assert UniqueIds(c[1..]);
      if c[0].item.id == id {
        forall l | l in c[1..] ensures LacksId(id)(l) {
          var k :| 0 <= k < |c[1..]| && c[1..][k] == l;
          assert c[0].item.id != c[k + 1].item.id;
        }
        Seqs.FilterAll(c[1..], LacksId(id));
      } else {
        SubtotalWithout(c[1..], id);
        var r := Without(c, id);
        assert r[0] == c[0] && r[1..] == Without(c[1..], id);
      }
    }
  }

  /** Adding raises the subtotal by one unit price: the new product's, or the
      price of the product stored in the existing line. */
  lemma AddSubtotal(c: seq<Line>, p: Product)
    requires Valid(c)
    ensures Subtotal(Add(c, p)) == Subtotal(c) + NumericPrice(
      match Lookup(c, p.id) case Some(l) => l.item case None => p)
  {
    if Lookup(c, p.id).Some? {
      var i :| 0 <= i < |c| && c[i] == Lookup(c, p.id).value;
      assert IdOnlyAt(c, i) by {
        forall j | 0 <= j < |c| && j != i ensures c[j].item.id != c[i].item.id {
          if j < i { assert c[j].item.id != c[i].item.id; }
        }
      }
      SubtotalBump(c, i, 1);
    } else {
      SubtotalAppend(c, [Line(p, 1)]);
      assert Subtotal([Line(p, 1)]) == NumericPrice(p) * 1.0;
    }
  }

  /** Removing lowers the subtotal by exactly the removed line's total. */
  lemma RemoveSubtotal(c: seq<Line>, id: ProductId)
    requires Valid(c)
    ensures Subtotal(Remove(c, id))
            == Subtotal(c) - (match Lookup(c, id) case Some(l) => LineTotal(l) case None => 0.0)
  {
    SubtotalWithout(c, id);
  }

  /** An illustration of AmountInCents: two units of a product listed at
      1234.50 come to 246900 cents. */
  lemma AmountExample(id: ProductId, name: string)
    ensures AmountInCents([Line(Product(id, name, Some(1234.5), NoPrice, None, None, None), 2)]) == 246900
  {
    var c := [Line(Product(id, name, Some(1234.5), NoPrice, None, None, None), 2)];
    assert Subtotal(c) == 2469.0;
  }
}
