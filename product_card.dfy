/** The desktop product card (`ProductCard`): which image it shows, the
    price it displays, how it classifies the stock, what its button reads
    and whether a click reaches `onAdd`. */
module ProductCard {
  import opened Wrappers
  import Text
  import opened Catalog
  import ProductSearch

  const DefaultImage := "/app/default-image.png"
  const Base64Prefix := "data:image/png;base64,"

  /** `hasValidImage`: a non-empty string whose trimmed length exceeds 20. */
  predicate HasValidImage(image: Option<string>)
  {
    image.Some? && image.value != "" && |Text.Trim(image.value)| > 20
  }

  /** `imageSrc`: the untrimmed value behind the base64 prefix, or the
      default picture. */
  function ImageSrc(image: Option<string>): (r: string)
    ensures HasValidImage(image) ==> r == Base64Prefix + image.value
    ensures !HasValidImage(image) ==> r == DefaultImage
  {
    if HasValidImage(image) then Base64Prefix + image.value else DefaultImage
  }

  /** A valid image is used as given (the prefix is never doubled or
      trimmed away), and only a valid one replaces the default. */
  lemma ImageSrcSpec(image: Option<string>)
    ensures Text.StartsWith(ImageSrc(image), Base64Prefix) <==> HasValidImage(image)
    ensures HasValidImage(image) ==> ImageSrc(image)[|Base64Prefix|..] == image.value
  {
    if !HasValidImage(image) {
      assert ImageSrc(image)[0] == '/';
    }
  }

  /** The displayed price: `list_price` when it is a number above 0, else
      `price || 0`. A text price that is not empty is passed on as text (the
      currency formatter converts it); a missing, zero or empty price shows 0. */
  function CardPrice(p: Product): (r: PriceField)
    ensures !r.NoPrice?
    ensures r.TextPrice? ==> r.text != "" && r == p.price
    ensures p.listPrice.Some? && p.listPrice.value > 0.0 ==> r == NumPrice(p.listPrice.value)
    ensures !(p.listPrice.Some? && p.listPrice.value > 0.0) && p.price.TextPrice? && p.price.text != "" ==>
              r == p.price
  {
    if p.listPrice.Some? && p.listPrice.value > 0.0 then NumPrice(p.listPrice.value)
    else match p.price
      case NoPrice => NumPrice(0.0)
      case NumPrice(x) => NumPrice(x)
      case TextPrice(t) => if t == "" then NumPrice(0.0) else TextPrice(t)
  }

  /** Unless the price is non-empty text, the card shows the same unit
      price the cart charges. */
  lemma CardPriceAgreesWithCart(p: Product)
    requires !(p.price.TextPrice? && p.price.text != "")
    ensures CardPrice(p) == NumPrice(NumericPrice(p))
  {
    if p.price.TextPrice? {
      assert Text.StripPriceChars("") == "";
    }
  }

  datatype StockLevel = Out | Low | Normal

  /** `stock = qty_available ?? 0`: out when at most 0, low up to 3. */
  function Stock(p: Product): int
  {
    p.qtyAvailable.GetOr(0)
  }

  function Level(p: Product): (r: StockLevel)
    ensures r == Out <==> Stock(p) <= 0
    ensures r == Low <==> 0 < Stock(p) <= 3
    ensures r == Normal <==> Stock(p) > 3
  {
    if Stock(p) <= 0 then Out else if Stock(p) <= 3 then Low else Normal
  }

  /** The button's text. */
  function ButtonLabel(p: Product): (r: string)
    ensures r == "Agotado" <==> Level(p) == Out
    ensures r == "Últimas Unidades" <==> Level(p) == Low
    ensures r == "Agregar" <==> Level(p) == Normal
  {
    match Level(p)
    case Out => "Agotado"
    case Low => "Últimas Unidades"
    case Normal => "Agregar"
  }

  /** `onClick={() => !outOfStock && onAdd(product)}`. */
  predicate ClickAdds(p: Product)
  {
    Level(p) != Out
  }

  /** A click the card lets through is never refused by the search card's
      own guard; the card also blocks a product with no stock figure, which
      that guard alone would let through. */
  lemma ClickPassesGuard(p: Product)
    ensures ClickAdds(p) ==> !ProductSearch.OutOfStock(p) && ProductSearch.HasStock(p)
    ensures p.qtyAvailable.None? ==> !ClickAdds(p) && !ProductSearch.OutOfStock(p)
  {
  }
}
