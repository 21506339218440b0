/** The product record shared by the catalog cache, the search panels, the
    product cards and the cart, and the unit-price rule used to total a cart
    (`getNumericPrice`). */
module Catalog {
  import opened Wrappers
  import Text

  /** Product ids arrive as numbers or strings and are compared with `===`,
      so the number 7 and the string "7" are different ids. */
  datatype ProductId = NumId(n: int) | StrId(s: string)

  /** The legacy `price` field: absent, a number, or a formatted string. */
  datatype PriceField = NoPrice | NumPrice(amount: real) | TextPrice(text: string)

  /** A catalog product. `listPrice` is `None` when `list_price` is not a
      number; `qtyAvailable` is `None` when `qty_available` is missing;
      `image512` is `None` when `image_512` is missing or not a string. */
  datatype Product = Product(
    id: ProductId,
    name: string,
    listPrice: Option<real>,
    price: PriceField,
    qtyAvailable: Option<int>,
    defaultCode: Option<string>,
    image512: Option<string>)

  /** A customer (Odoo partner) as chosen for an order. */
  datatype Partner = Partner(id: int, name: string)

  /** `getNumericPrice`: a positive numeric list price first, then a string
      price stripped of `$`, `,` and white space and parsed (NaN gives 0), then
      a numeric price, then 0. */
  function NumericPrice(p: Product): real
  {
    if p.listPrice.Some? && p.listPrice.value > 0.0 then p.listPrice.value
    else match p.price
      case TextPrice(t) => Text.ParseFloat(Text.StripPriceChars(t)).GetOr(0.0)
      case NumPrice(x) => x
      case NoPrice => 0.0
  }

  /** The list price decides alone: a positive one wins whatever `price`
      holds, and a zero, negative or missing one is as good as none. */
  lemma PricingRule(p: Product, other: PriceField)
    ensures p.listPrice.Some? && p.listPrice.value > 0.0 ==>
              NumericPrice(p) == p.listPrice.value && NumericPrice(p.(price := other)) == p.listPrice.value
    ensures !(p.listPrice.Some? && p.listPrice.value > 0.0) ==>
              NumericPrice(p) == NumericPrice(p.(listPrice := None))
  {
  }

  /** Without a list price, a text price resolves to 0 exactly when it does
      not parse (NaN) or parses to 0: NaN never reaches a total. */
  lemma TextPriceZero(p: Product)
    requires p.listPrice.None? && p.price.TextPrice?
    ensures NumericPrice(p) == 0.0 <==> Text.ParseFloat(Text.StripPriceChars(p.price.text)) in {None, Some(0.0)}
  {
  }

  /** Stripping a price formatted as `$a,b.c` leaves the numeral `ab.c`. */
  lemma StripFormattedPrice(a: string, b: string, c: string)
    requires Text.AllDigits(a) && Text.AllDigits(b) && Text.AllDigits(c)
    ensures Text.StripPriceChars("$" + a + "," + b + "." + c) == (a + b) + "." + c
  {
    var tail := "." + c;
    assert "$" + a + "," + b + "." + c == "$" + (a + ("," + (b + tail)));
    assert forall i :: 0 <= i < |tail| ==> Text.KeptInPrice(tail[i]) by {
      forall i | 0 <= i < |tail| ensures Text.KeptInPrice(tail[i]) {
        if i > 0 { assert tail[i] == c[i - 1]; }
      }
    }
    calc {
      Text.StripPriceChars("$" + (a + ("," + (b + tail))));
    == { StripDropsSeparator('$', a + ("," + (b + tail))); }
      Text.StripPriceChars(a + ("," + (b + tail)));
    == { StripKeepsDigits(a, "," + (b + tail)); }
      a + Text.StripPriceChars("," + (b + tail));
    == { StripDropsSeparator(',', b + tail); }
      a + Text.StripPriceChars(b + tail);
    == { StripKeepsDigits(b, tail); }
      a + (b + Text.StripPriceChars(tail));
    == { Text.StripPriceCharsKeeps(tail); }
      a + (b + tail);
    == { Assoc(a, b, tail); Assoc(a + b, ".", c); }
      (a + b) + "." + c;
    }
  }

  lemma StripDropsSeparator(sep: char, x: string)
    requires !Text.KeptInPrice(sep)
    ensures Text.StripPriceChars([sep] + x) == Text.StripPriceChars(x)
  {
    assert ([sep] + x)[1..] == x;
  }

  lemma StripKeepsDigits(a: string, x: string)
    requires Text.AllDigits(a)
    ensures Text.StripPriceChars(a + x) == a + Text.StripPriceChars(x)
  {
    Text.StripPriceCharsAppend(a, x);
    Text.StripPriceCharsKeeps(a);
  }

  lemma Assoc(x: string, y: string, z: string)
    ensures x + (y + z) == (x + y) + z
  {
  }

  /** A price formatted as `$a,b.c` is worth the decimal `ab.c`. */
  lemma FormattedPriceValue(a: string, b: string, c: string)
    requires Text.AllDigits(a) && Text.AllDigits(b) && Text.AllDigits(c)
    requires a + b != [] && c != []
    ensures Text.ParseFloat(Text.StripPriceChars("$" + a + "," + b + "." + c)) == Some(Text.Decimal(a + b, c))
  {
    StripFormattedPrice(a, b, c);
    assert Text.AllDigits(a + b) by {
      forall i | 0 <= i < |a + b| ensures Text.IsDigit((a + b)[i]) {
        if i >= |a| { assert (a + b)[i] == b[i - |a|]; }
      }
    }
    Text.ParseFloatDecimal(a + b, c);
  }

  /** An illustration of Decimal: the numeral "1234.50" is 1234.5. */
  lemma DecimalExample()
    ensures Text.Decimal("1234", "50") == 1234.5
  {
    DigitsValueExample();
    assert Text.Pow10(|"50"|) == 100;
  }

  /** An illustration of DigitsValue, used by DecimalExample. */
  lemma DigitsValueExample()
    ensures Text.DigitsValue("1234") == 1234
    ensures Text.DigitsValue("50") == 50
  {
    assert Text.DigitsValue("1234") == 1234 by {
      assert "1234"[..3] == "123"; assert "123"[..2] == "12"; assert "12"[..1] == "1";
      assert "1"[..0] == "";
    }
    assert "50"[..1] == "5"; assert "5"[..0] == "";
  }

  /** An illustration of NaN: "N/A" keeps every character and does not
      parse. */
  lemma NoDigitExample()
    ensures Text.ParseFloat(Text.StripPriceChars("N/A")) == None
  {
    Text.StripPriceCharsKeeps("N/A");
    Text.ParseFloatNoNumber("N/A");
  }

  /** A zero list price falls through to a string price such as
      "$1,234.50", which is worth its decimal; a string price with no digit
      ("N/A"), or no price at all, resolves to 0. */
  lemma PricingExamples(id: ProductId, name: string, a: string, b: string, c: string)
    requires Text.AllDigits(a) && Text.AllDigits(b) && Text.AllDigits(c)
    requires a + b != [] && c != []
    ensures NumericPrice(Product(id, name, Some(0.0), TextPrice("$" + a + "," + b + "." + c), None, None, None))
            == Text.Decimal(a + b, c)
    ensures NumericPrice(Product(id, name, None, TextPrice("N/A"), None, None, None)) == 0.0
    ensures NumericPrice(Product(id, name, None, NoPrice, None, None, None)) == 0.0
  {
    FormattedPriceValue(a, b, c);
    NoDigitExample();
  }
}
