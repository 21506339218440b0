/** The mobile catalog search (`ProductSearchCardMov`): it loads the
    seller's products (all of them, whatever their stock), filters them by
    name or internal reference, shows each one's quantity in the cart, and
    forwards the card's add and decrease buttons to the page. */
module ProductSearchMov {
  import opened Wrappers
  import Seqs
  import Text
  import Http
  import Dialogs
  import opened Catalog
  import Cart
  import CreateOrderMov
  import ProductSearch

  const NoEmployee := "ID de empleado no encontrado."
  const ConnectionFailed := "Falló la conexión."

  /** The JSON shapes told apart: an array, or anything else. */
  datatype ProductsJson = ProductArray(items: seq<Product>) | NotArray

  /** `(p.name || "")` or `(p.default_code || "")`, lower-cased, contains `lower`. */
  predicate Matches(lower: string, p: Product)
  {
    Text.Includes(Text.ToLower(p.name), lower) || Text.Includes(Text.ToLower(p.defaultCode.GetOr("")), lower)
  }

  function MatchesTest(lower: string): Product -> bool { (p: Product) => Matches(lower, p) }

  /** The filter effect: every product for a blank query (`query.trim() === ""`,
      that is, all white space), otherwise the matching ones, with no stock test. */
  function Visible(query: string, products: seq<Product>): seq<Product>
  {
    if Text.AllSpace(query) then products else Seqs.Filter(products, MatchesTest(Text.ToLower(query)))
  }

  lemma VisibleSpec(query: string, products: seq<Product>)
    ensures Text.AllSpace(query) ==> Visible(query, products) == products
    ensures !Text.AllSpace(query) ==>
              forall p :: p in Visible(query, products) <==> p in products && Matches(Text.ToLower(query), p)
    ensures Seqs.IsSubseq(Visible(query, products), products)
  {
    if !Text.AllSpace(query) {
      Seqs.FilterIsSubseq(products, MatchesTest(Text.ToLower(query)));
    } else {
      Seqs.FilterAll(products, (p: Product) => true);
      Seqs.FilterIsSubseq(products, (p: Product) => true);
    }
  }

  lemma CaseInsensitive(query: string, products: seq<Product>)
    ensures Visible(Text.ToUpper(query), products) == Visible(query, products)
  {
    Text.LowerOfUpper(query);
    Text.AllSpaceUpper(query);
  }

  /** Unlike the desktop card, a matching product out of stock is listed. */
  lemma OutOfStockListed(query: string, products: seq<Product>, p: Product)
    requires !Text.AllSpace(query) && p in products && ProductSearch.OutOfStock(p)
    requires Matches(Text.ToLower(query), p) && ProductSearch.Matches(Text.ToLower(query), p)
    ensures p in Visible(query, products)
    ensures p !in ProductSearch.Visible(query, products)
  {
    VisibleSpec(query, products);
    ProductSearch.VisibleSpec(query, products);
  }

  /** What a reply to `/products` does: `Ok(Some(list))` replaces the
      list, `Ok(None)` (a body that is not an array) changes nothing, and any
      failure reports the fixed connection message. */
  function Load(reply: Http.Reply<ProductsJson>): (r: Result<Option<seq<Product>>, string>)
    ensures r.Err? ==> r.error == ConnectionFailed
    ensures r.Ok? && r.value.Some? <==>
              reply.Response? && reply.ok && reply.body.Json? && reply.body.value.ProductArray?
    ensures r.Ok? && r.value.Some? ==> r.value.value == reply.body.value.items
  {
    match reply
    case Thrown(_) => Err(ConnectionFailed)
    case Response(ok, _, _, body) =>
      if !ok then Err(ConnectionFailed)
      else match body
        case Unparsable(_) => Err(ConnectionFailed)
        case Json(NotArray) => Ok(None)
        case Json(ProductArray(xs)) => Ok(Some(xs))
  }

  /** The add guard's dialog on the mobile page. */
  function NoStockDialog(name: string): CreateOrderMov.Dialog
  {
    Dialogs.Modal(true, "⚠️ Sin Stock", "El producto \"" + name + "\" no tiene unidades disponibles.",
                  CreateOrderMov.Close, CreateOrderMov.Close, "Entendido", false, false)
  }

  /** The quantity a card shows is the cart's quantity for that product; the
      card's buttons move it by one, and decreasing stops at absence. */
  lemma DisplayedQty(cart: seq<Cart.Line>, p: Product)
    ensures Cart.QtyOf(Cart.Add(cart, p), p.id) == Cart.QtyOf(cart, p.id) + 1
    ensures Cart.QtyOf(Cart.Decrease(cart, p.id), p.id)
            == if Cart.QtyOf(cart, p.id) <= 1 then 0 else Cart.QtyOf(cart, p.id) - 1
  {
    Cart.AddQty(cart, p, p.id);
    Cart.DecreaseQty(cart, p.id, p.id);
  }

  class SearchCardMov {
    var products: seq<Product>
    var filtered: seq<Product>
    var query: string
    var loading: bool
    var error: Option<string>

    predicate Valid()
      reads this
    {
      filtered == Visible(query, products)
    }

    constructor ()
      ensures Valid()
      ensures products == [] && filtered == [] && query == "" && !loading && error == None
    {
      products := [];
      filtered := [];
      query := "";
      loading := false;
      error := None;
    }

    /** Typing in the search box, which is disabled while the products load. */
    method SetQuery(q: string)
      modifies this
      requires Valid()
      ensures Valid()
      ensures query == (if old(loading) then old(query) else q)
      ensures old(loading) ==> filtered == old(filtered)
      ensures products == old(products) && loading == old(loading) && error == old(error)
    {
      if loading {
        return;
      }
      query := q;
      filtered := Visible(q, products);
    }

    /** `fetchProducts`, with the stored `employee_id` and the reply as
        inputs. Without an employee id no request is made. */
    method FetchProducts(employeeId: Option<string>, reply: Http.Reply<ProductsJson>) returns (requested: bool)
      modifies this
      requires Valid()
      ensures Valid()
      ensures requested <==> Http.Present(employeeId)
      ensures !loading && query == old(query)
      ensures !requested ==> error == Some(NoEmployee) && products == old(products) && filtered == old(filtered)
      ensures requested ==>
                match Load(reply)
                case Err(e) => error == Some(e) && products == old(products) && filtered == old(filtered)
                case Ok(None) => error == None && products == old(products) && filtered == old(filtered)
                case Ok(Some(xs)) => error == None && products == xs
    {
      loading := true;
      error := None;
      if !Http.Present(employeeId) {
        error := Some(NoEmployee);
        loading := false;
        return false;
      }
      requested := true;
      match Load(reply) {
        case Err(e) =>
          error := Some(e);
        case Ok(None) =>
        case Ok(Some(xs)) =>
          products := xs;
          filtered := Visible(query, products);
      }
      loading := false;
    }

    /** `handleAddInternal`: refused with a dialog when out of stock,
        otherwise handed to the page's `handleAdd`. */
    method HandleAddInternal(p: Product, page: CreateOrderMov.CreateOrderMovPage)
      modifies page
      ensures ProductSearch.OutOfStock(p) ==>
                page.cart == old(page.cart) && page.modalState == NoStockDialog(p.name)
      ensures !ProductSearch.OutOfStock(p) ==>
                page.cart == Cart.Add(old(page.cart), p) && page.modalState == old(page.modalState)
      ensures page.selectedPartner == old(page.selectedPartner)
      ensures page.orderSubmitting == old(page.orderSubmitting)
    {
      if ProductSearch.OutOfStock(p) {
        page.modalState := NoStockDialog(p.name);
        return;
      }
      page.HandleAdd(p);
    }

    /** `handleDecreaseInternal`: forwarded as it is. */
    method HandleDecreaseInternal(p: Product, page: CreateOrderMov.CreateOrderMovPage)
      modifies page
      ensures page.cart == Cart.Decrease(old(page.cart), p.id)
      ensures page.modalState == old(page.modalState)
      ensures page.selectedPartner == old(page.selectedPartner)
      ensures page.orderSubmitting == old(page.orderSubmitting)
    {
      page.HandleDecrease(p);
    }
  }
}
