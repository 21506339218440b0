/** The desktop catalog search (`ProductSearchCard`): it loads the products
    in stock, filters them by a case-insensitive query on the name or the
    internal reference, and refuses to add a product without stock. */
module ProductSearch {
  import opened Wrappers
  import Seqs
  import Text
  import Http
  import Dialogs
  import opened Catalog
  import Cart
  import CreateOrder

  const UnexpectedShape := "Formato de datos inesperado de la API."

  /** The JSON shapes `/products` may answer with: an array, an object with
      a `products` array, or anything else. */
  datatype ProductsJson = ProductArray(items: seq<Product>) | ProductsField(items: seq<Product>) | OtherShape

  /** `p.qty_available > 0` (also `(p.qty_available ?? 0) > 0`): a missing
      stock counts as none. */
  predicate HasStock(p: Product)
  {
    p.qtyAvailable.Some? && p.qtyAvailable.value > 0
  }

  /** `p.qty_available <= 0`, the add guard: a missing stock is not
      compared as 0 (`undefined <= 0` is false), so it does not refuse. */
  predicate OutOfStock(p: Product)
  {
    p.qtyAvailable.Some? && p.qtyAvailable.value <= 0
  }

  /** The lower-cased name contains `lower`, or there is a non-empty
      `default_code` whose lower-cased form does. */
  predicate Matches(lower: string, p: Product)
  {
    Text.Includes(Text.ToLower(p.name), lower)
    || (p.defaultCode.Some? && p.defaultCode.value != "" && Text.Includes(Text.ToLower(p.defaultCode.value), lower))
  }

  predicate AllInStock(products: seq<Product>)
  {
    forall p :: p in products ==> HasStock(p)
  }

  function HasStockTest(): Product -> bool { (p: Product) => HasStock(p) }
  function MatchesTest(lower: string): Product -> bool { (p: Product) => Matches(lower, p) }

  /** The filter effect: every product for a blank query; otherwise those in
      stock that match the lower-cased (untrimmed) query. The test
      `query.trim() === ""` is written as `AllSpace`, to which it is
      equivalent (`Text.TrimEmptyIff`). */
  function Visible(query: string, products: seq<Product>): seq<Product>
  {
    if Text.AllSpace(query) then products
    else Seqs.Filter(Seqs.Filter(products, HasStockTest()), MatchesTest(Text.ToLower(query)))
  }

  /** A blank query shows everything; otherwise exactly the matching
      products in stock are shown, in their original order. */
  lemma VisibleSpec(query: string, products: seq<Product>)
    ensures Text.AllSpace(query) ==> Visible(query, products) == products
    ensures !Text.AllSpace(query) ==>
              forall p :: p in Visible(query, products)
                <==> p in products && HasStock(p) && Matches(Text.ToLower(query), p)
    ensures Seqs.IsSubseq(Visible(query, products), products)
  {
    var lower := Text.ToLower(query);
    if !Text.AllSpace(query) {
      Seqs.FilterFilter(products, HasStockTest(), MatchesTest(lower));
      Seqs.FilterIsSubseq(products, Seqs.Both(HasStockTest(), MatchesTest(lower)));
    } else {
      Seqs.FilterAll(products, (p: Product) => true);
      Seqs.FilterIsSubseq(products, (p: Product) => true);
    }
  }

  /** The search ignores the case of the query. */
  lemma CaseInsensitive(query: string, products: seq<Product>)
    ensures Visible(Text.ToUpper(query), products) == Visible(query, products)
  {
    Text.LowerOfUpper(query);
    Text.AllSpaceUpper(query);
  }

  /** What `fetchProducts` makes of the reply: the products in stock, or the
      error message to show. */
  function Load(reply: Http.Reply<ProductsJson>): (r: Result<seq<Product>, string>)
    ensures r.Ok? <==> reply.Response? && reply.ok && reply.body.Json? && !reply.body.value.OtherShape?
    ensures r.Ok? ==> r.value == Seqs.Filter(reply.body.value.items, HasStockTest())
    ensures reply.Thrown? ==> r == Err(reply.message)
    ensures reply.Response? && reply.ok && reply.body.Unparsable? ==> r == Err(reply.body.parseError)
    ensures reply.Response? && reply.ok && reply.body.Json? && reply.body.value.OtherShape? ==>
              r == Err(UnexpectedShape)
  {
    match reply
    case Thrown(m) => Err(m)
    case Response(ok, status, _, body) =>
      if !ok then Err("HTTP error! status: " + Text.IntToString(status))
      else match body
        case Unparsable(e) => Err(e)
        case Json(OtherShape) => Err(UnexpectedShape)
        case Json(data) => Ok(Seqs.Filter(data.items, HasStockTest()))
  }

  /** Everything loaded is in stock, and a refused status is reported with
      its code. */
  lemma LoadSpec(reply: Http.Reply<ProductsJson>)
    ensures Load(reply).Ok? ==> AllInStock(Load(reply).value)
    ensures Load(reply).Ok? ==> Seqs.IsSubseq(Load(reply).value, reply.body.value.items)
    ensures reply.Response? && !reply.ok ==>
              Load(reply) == Err("HTTP error! status: " + Text.IntToString(reply.status))
  {
    if Load(reply).Ok? {
      Seqs.FilterIsSubseq(reply.body.value.items, HasStockTest());
    }
  }

  /** The dialog the add guard opens on the page. */
  function NoStockDialog(name: string): CreateOrder.Dialog
  {
    Dialogs.Modal(true, "⚠️ Sin Stock", "El producto \"" + name + "\" no tiene unidades disponibles.",
                  CreateOrder.Close, CreateOrder.Close, "Aceptar", false, false)
  }

  class SearchCard {
    var products: seq<Product>
    var filtered: seq<Product>
    var query: string
    var loading: bool
    var error: Option<string>

    /** What the component keeps true between renders: the list shown is
        the filter of the loaded products, all of which are in stock. */
    predicate Valid()
      reads this
    {
      filtered == Visible(query, products) && AllInStock(products)
    }

    constructor ()
      ensures Valid()
      ensures products == [] && filtered == [] && query == "" && !loading && error == None
    {
      products := [];
      filtered := [];
      query := "";
      loading := false;
      error := None;
    }

    /** Typing in the search box; the filter effect follows. The box is
        disabled while the products load. */
    method SetQuery(q: string)
      modifies this
      requires Valid()
      ensures Valid()
      ensures !old(loading) ==> query == q && filtered == Visible(q, products)
      ensures old(loading) ==> query == old(query) && filtered == old(filtered)
      ensures products == old(products) && loading == old(loading) && error == old(error)
    {
      if loading {
        return;
      }
      query := q;
      filtered := Visible(q, products);
    }

    /** `fetchProducts` with the reply as input: a usable reply replaces the
        list (and the filter effect runs on it); any other leaves the list
        and reports the error. */
    method FetchProducts(reply: Http.Reply<ProductsJson>)
      modifies this
      requires Valid()
      ensures Valid()
      ensures !loading && query == old(query)
      ensures match Load(reply)
              case Ok(xs) => products == xs && error == None
              case Err(e) => products == old(products) && filtered == old(filtered) && error == Some(e)
    {
      loading := true;
      error := None;
      var r := Load(reply);
      match r {
        case Ok(xs) =>
          LoadSpec(reply);
          products := xs;
          filtered := Visible(query, products);
        case Err(e) =>
          error := Some(e);
      }
      loading := false;
    }

    /** `handleAddInternal`: a product out of stock opens a dialog on the
        page instead of reaching the cart; any other is added once. */
    method HandleAddInternal(p: Product, page: CreateOrder.CreateOrderPage)
      modifies page
      ensures OutOfStock(p) ==> page.cart == old(page.cart) && page.modalState == NoStockDialog(p.name)
      ensures !OutOfStock(p) ==> page.cart == Cart.Add(old(page.cart), p) && page.modalState == old(page.modalState)
      ensures page.selectedPartner == old(page.selectedPartner)
      ensures page.orderSubmitting == old(page.orderSubmitting)
    {
      if OutOfStock(p) {
        page.modalState := NoStockDialog(p.name);
        return;
      }
      page.HandleAdd(p);
    }
  }

  /** Nothing the card lists is refused by the guard. */
  lemma ShownProductsAddable(query: string, products: seq<Product>, p: Product)
    requires AllInStock(products)
    requires p in Visible(query, products)
    ensures !OutOfStock(p)
  {
    VisibleSpec(query, products);
  }
}
