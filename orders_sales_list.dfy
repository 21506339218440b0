/** The desktop sales-order list (`OrdersSalesList`): how an ERP sale order
    is turned into the row the list shows, which rows the status tabs and
    the search box keep, when an order may be cancelled, and what the row
    menu's payment and cancellation send. */
module OrdersSalesList {
  import opened Wrappers
  import Seqs
  import Text
  import Http
  import Money
  import CreateOrderMov

  const Draft := "Borrador/Enviado"
  const InTransit := "En tránsito"
  const Delivered := "Entregado"
  const Cancelled := "Cancelado"
  const Pending := "Pendiente"

  /** The five labels a status can take. */
  predicate IsStatus(s: string)
  {
    s == Draft || s == InTransit || s == Delivered || s == Cancelled || s == Pending
  }

  /** The ERP states the mapping names. */
  predicate KnownState(state: string)
  {
    state == "draft" || state == "sent" || state == "sale" || state == "done" || state == "cancel"
  }

  /** A sale order as the ERP returns it: `name`, `state`, the partner's
      display name from `partner_id` (missing when the order has no partner)
      and `amount_total` (missing when absent or null). */
  datatype SaleOrder = SaleOrder(name: string, state: string, partnerName: Option<string>, amountTotal: Option<real>)

  /** The row the list shows. The formatted date, total and commission are
      locale formatting and are not part of this model. */
  datatype OrderView = OrderView(id: string, customer: string, status: string, amountTotalRaw: real, rawState: string)

  /** The `switch` on `order.state`: total, with "Pendiente" for every state
      it does not name. */
  function MapState(state: string): (r: string)
    ensures IsStatus(r)
    ensures r == Draft <==> state == "draft" || state == "sent"
    ensures r == InTransit <==> state == "sale"
    ensures r == Delivered <==> state == "done"
    ensures r == Cancelled <==> state == "cancel"
    ensures r == Pending <==> !KnownState(state)
  {
    match state
    case "draft" => Draft
    case "sent" => Draft
    case "sale" => InTransit
    case "done" => Delivered
    case "cancel" => Cancelled
    case _ => Pending
  }

  /** `mapOdooOrderToView`. */
  function MapOrder(o: SaleOrder): (r: OrderView)
    ensures r.id == o.name && r.rawState == o.state && r.status == MapState(o.state)
    ensures r.customer != ""
    ensures r.customer == "Sin cliente" <==> o.partnerName.None? || o.partnerName.value in {"", "Sin cliente"}
    ensures o.amountTotal.None? ==> r.amountTotalRaw == 0.0
    ensures o.amountTotal.Some? ==> r.amountTotalRaw == o.amountTotal.value
  {
    OrderView(o.name, Http.Or(o.partnerName.GetOr(""), "Sin cliente"), MapState(o.state),
              o.amountTotal.GetOr(0.0), o.state)
  }

  function MapOrderFn(): SaleOrder -> OrderView { (o: SaleOrder) => MapOrder(o) }

  /** `orders.map(mapOdooOrderToView)`. */
  function Rows(orders: seq<SaleOrder>): (r: seq<OrderView>)
    ensures |r| == |orders|
    ensures forall i :: 0 <= i < |orders| ==> r[i] == MapOrder(orders[i])
  {
    Seqs.Map(orders, MapOrderFn())
  }

  // ---------------------------------------------------------------------
  // Tabs and search
  // ---------------------------------------------------------------------

  const AllTab := "ALL"
  const Tabs := [AllTab, Draft, Pending, InTransit, Delivered, Cancelled]

  /** The search term: lower-cased, then trimmed. */
  function SearchTerm(search: string): string
  {
    Text.Trim(Text.ToLower(search))
  }

  /** A row passes the tab, and the (already lower-cased and trimmed) term is
      empty or is contained in the lower-cased id or customer. */
  predicate Shown(tab: string, term: string, v: OrderView)
  {
    (tab == AllTab || v.status == tab)
    && (term == "" || Text.Includes(Text.ToLower(v.id), term) || Text.Includes(Text.ToLower(v.customer), term))
  }

  function ShownTest(tab: string, term: string): OrderView -> bool { (v: OrderView) => Shown(tab, term, v) }

  /** `filteredOrders`. */
  function Filtered(orders: seq<SaleOrder>, tab: string, search: string): seq<OrderView>
  {
    Seqs.Filter(Rows(orders), ShownTest(tab, SearchTerm(search)))
  }

  /** Exactly the rows passing the tab and the search are listed, in the
      order the orders came in; "ALL" with a blank search lists every row. */
  lemma FilteredSpec(orders: seq<SaleOrder>, tab: string, search: string)
    ensures forall v :: v in Filtered(orders, tab, search) <==> v in Rows(orders) && Shown(tab, SearchTerm(search), v)
    ensures Seqs.IsSubseq(Filtered(orders, tab, search), Rows(orders))
    ensures tab == AllTab && Text.AllSpace(search) ==> Filtered(orders, tab, search) == Rows(orders)
  {
    Seqs.FilterIsSubseq(Rows(orders), ShownTest(tab, SearchTerm(search)));
    if tab == AllTab && Text.AllSpace(search) {
      BlankSearchTerm(search);
      Seqs.FilterAll(Rows(orders), ShownTest(tab, SearchTerm(search)));
    }
  }

  /** A search made only of white space is no search at all. */
  lemma BlankSearchTerm(search: string)
    requires Text.AllSpace(search)
    ensures SearchTerm(search) == ""
  {
    Text.AllSpaceLower(search);
    Text.TrimEmptyIff(Text.ToLower(search));
  }

  /** Every status has its tab, so each row is listed under "ALL" and under
      exactly one other tab. */
  lemma EveryStatusHasTab(v: OrderView, term: string)
    requires IsStatus(v.status)
    ensures v.status in Tabs[1..]
    ensures Shown(AllTab, term, v) <==> Shown(v.status, term, v)
    ensures forall t :: t in Tabs[1..] && t != v.status ==> !Shown(t, term, v)
  {
  }

  // ---------------------------------------------------------------------
  // Row actions
  // ---------------------------------------------------------------------

  /** `canCancel`: a draft, sent or pending order. */
  predicate CanCancel(status: string)
  {
    status == Draft || status == Pending
  }

  /** An order may be cancelled exactly when its ERP state is not a sale in
      progress, a finished sale or already cancelled. */
  lemma CanCancelIff(o: SaleOrder)
    ensures CanCancel(MapOrder(o).status) <==> o.state != "sale" && o.state != "done" && o.state != "cancel"
  {
  }

  /** The body posted to `/wompicol/widget-init`. */
  datatype PayRequest = PayRequest(orderId: string, amountInCents: int, currency: string,
                                   employeeId: CreateOrderMov.EmployeeField)

  /** The request for a row: its id, `Math.round(amount_total_raw * 100)`
      cents of COP, and the employee id as the mobile checkout sends it. */
  function PayRequestFor(v: OrderView, stored: Option<string>): (r: PayRequest)
    ensures r.orderId == v.id && r.currency == "COP"
    ensures r.amountInCents == Money.Cents(v.amountTotalRaw)
    ensures r.employeeId.Omitted? <==> !Http.Present(stored)
  {
    PayRequest(v.id, Money.Cents(v.amountTotalRaw), "COP", CreateOrderMov.EmployeeId(stored))
  }

  /** An order without a total asks for a payment of 0 cents. */
  lemma NoTotalPaysZero(o: SaleOrder, stored: Option<string>)
    requires o.amountTotal.None?
    ensures PayRequestFor(MapOrder(o), stored).amountInCents == 0
  {
  }

  /** The widget-init answer: `success` and `message`. */
  datatype WidgetJson = WidgetJson(success: bool, message: string)

  /** What the payment step reports: nothing when the widget may open, else
      the alert "Error de pago: " with the failure's message. */
  function PayNotice(reply: Http.Reply<WidgetJson>): (r: Option<string>)
    ensures r.None? <==> reply.Response? && reply.ok && reply.body.Json? && reply.body.value.success
    ensures r.Some? ==> Text.StartsWith(r.value, "Error de pago: ")
    ensures reply.Thrown? ==> r == Some("Error de pago: " + reply.message)
    ensures reply.Response? && reply.body.Unparsable? ==> r == Some("Error de pago: " + reply.body.parseError)
    ensures reply.Response? && reply.body.Json? && (!reply.ok || !reply.body.value.success) ==>
              r == Some("Error de pago: " + Http.Or(reply.body.value.message, "Error al iniciar pago"))
  {
    var prefix := "Error de pago: ";
    match reply
    case Thrown(m) => Some(prefix + m)
    case Response(ok, _, _, Unparsable(e)) => Some(prefix + e)
    case Response(ok, _, _, Json(data)) =>
      if !ok || !data.success then
        assert (prefix + Http.Or(data.message, "Error al iniciar pago"))[..|prefix|] == prefix;
        Some(prefix + Http.Or(data.message, "Error al iniciar pago"))
      else None
  }

  /** The `/cancel-sale-order` answer: `ok` and `error` (possibly missing).
      A JSON `null` or a non-string `error` is read as missing, so it alerts
      "Error: undefined" where the page would print "Error: null" or the
      value's own text. */
  datatype CancelJson = CancelJson(ok: bool, error: Option<string>)

  /** The alert after a cancellation, and whether the list is fetched again:
      only a reply whose `ok` field is true does both. */
  function CancelOutcome(id: string, reply: Http.Reply<CancelJson>): (r: (string, bool))
    ensures r.1 <==> reply.Response? && reply.body.Json? && reply.body.value.ok
    ensures r.1 ==> r.0 == "Orden " + id + " cancelada."
    ensures (reply.Thrown? || reply.body.Unparsable?) ==> r.0 == "Error de conexión."
    ensures reply.Response? && reply.body.Json? && !reply.body.value.ok ==>
              r.0 == "Error: " + reply.body.value.error.GetOr("undefined")
  {
    match reply
    case Thrown(_) => ("Error de conexión.", false)
    case Response(_, _, _, Unparsable(_)) => ("Error de conexión.", false)
    case Response(_, _, _, Json(result)) =>
      if result.ok then ("Orden " + id + " cancelada.", true)
      else ("Error: " + result.error.GetOr("undefined"), false)
  }

  /** The `/sale_orders` answer: `success` and `orders`. */
  datatype OrdersJson = OrdersJson(success: bool, orders: seq<SaleOrder>)

  /** Whether a reply replaces the orders: a JSON body with `success`; the
      HTTP status is not looked at. */
  predicate Replaces(reply: Http.Reply<OrdersJson>)
  {
    reply.Response? && reply.body.Json? && reply.body.value.success
  }

  /** A refused status with a successful body still replaces the list. */
  lemma StatusIgnored(xs: seq<SaleOrder>)
    ensures Replaces(Http.Response(false, 500, "", Http.Json(OrdersJson(true, xs))))
    ensures !Replaces(Http.Response(true, 200, "", Http.Json(OrdersJson(false, xs))))
  {
  }

  datatype Action = Pay | Cancel

  /** `modalConfig`: open or not, the action it asks to confirm, the order. */
  datatype ModalConfig = ModalConfig(isOpen: bool, kind: Option<Action>, order: Option<OrderView>)

  const ClosedModal := ModalConfig(false, None, None)

  /** What the confirm button sends: the payment request or the order id to
      cancel. */
  datatype Request = PayInit(pay: PayRequest) | CancelOrder(orderId: string)

  class OrdersSalesListPage {
    var orders: seq<SaleOrder>
    var loading: bool
    var activeTab: string
    var searchTerm: string
    var activeMenuId: Option<string>
    var modal: ModalConfig
    var actionLoading: bool

    /** The dialog names an action exactly when it names an order, it is open
        only with both, and a cancellation is only ever asked for an order
        that may be cancelled. */
    predicate Valid()
      reads this
    {
      (modal.kind.Some? <==> modal.order.Some?)
      && (modal.isOpen ==> modal.kind.Some?)
      && (modal.kind == Some(Cancel) ==> CanCancel(modal.order.value.status))
    }

    /** The rows on screen. */
    function Shown(): seq<OrderView>
      reads this
    {
      Filtered(orders, activeTab, searchTerm)
    }

    constructor ()
      ensures Valid()
      ensures orders == [] && !loading && activeTab == AllTab && searchTerm == ""
      ensures activeMenuId == None && modal == ClosedModal && !actionLoading
    {
      orders := [];
      loading := false;
      activeTab := AllTab;
      searchTerm := "";
      activeMenuId := None;
      modal := ClosedModal;
      actionLoading := false;
    }

    /** `fetchOrders`, with the stored employee id and the reply as inputs:
        nothing happens without an id; otherwise the orders are replaced when
        the reply says `success`, and loading ends. */
    method FetchOrders(stored: Option<string>, reply: Http.Reply<OrdersJson>) returns (requested: bool)
      modifies this
      requires Valid()
      ensures Valid()
      ensures requested <==> Http.Present(stored)
      ensures orders == if requested && Replaces(reply) then reply.body.value.orders else old(orders)
      ensures loading == if requested then false else old(loading)
      ensures activeTab == old(activeTab) && searchTerm == old(searchTerm)
      ensures activeMenuId == old(activeMenuId) && modal == old(modal) && actionLoading == old(actionLoading)
    {
      if !Http.Present(stored) {
        return false;
      }
      requested := true;
      loading := true;
      if Replaces(reply) {
        orders := reply.body.value.orders;
      }
      loading := false;
    }

    /** The `i`-th tab button: `setActiveTab(tab)`; the rows on screen become
        those of that tab and the current search. */
    method SelectTab(i: nat)
      modifies this
      requires Valid() && i < |Tabs|
      ensures Valid()
      ensures activeTab == Tabs[i] && Shown() == Filtered(orders, Tabs[i], searchTerm)
      ensures orders == old(orders) && searchTerm == old(searchTerm) && loading == old(loading)
      ensures activeMenuId == old(activeMenuId) && modal == old(modal) && actionLoading == old(actionLoading)
    {
      activeTab := Tabs[i];
    }

    /** The search box: `setSearchTerm(e.target.value)`. */
    method SetSearch(term: string)
      modifies this
      requires Valid()
      ensures Valid()
      ensures searchTerm == term && Shown() == Filtered(orders, activeTab, term)
      ensures orders == old(orders) && activeTab == old(activeTab) && loading == old(loading)
      ensures activeMenuId == old(activeMenuId) && modal == old(modal) && actionLoading == old(actionLoading)
    {
      searchTerm := term;
    }

    /** The overlay behind an open row menu: a click closes the menu. */
    method CloseMenu()
      modifies this
      requires Valid()
      ensures Valid()
      ensures activeMenuId == None
      ensures orders == old(orders) && modal == old(modal) && loading == old(loading)
      ensures activeTab == old(activeTab) && searchTerm == old(searchTerm) && actionLoading == old(actionLoading)
    {
      activeMenuId := None;
    }

    /** The row menu button: opens this row's menu, or closes it if open. */
    method ToggleMenu(id: string)
      modifies this
      requires Valid()
      ensures Valid()
      ensures activeMenuId == if old(activeMenuId) == Some(id) then None else Some(id)
      ensures orders == old(orders) && modal == old(modal) && loading == old(loading)
      ensures activeTab == old(activeTab) && searchTerm == old(searchTerm) && actionLoading == old(actionLoading)
    {
      activeMenuId := if activeMenuId == Some(id) then None else Some(id);
    }

    /** "Pagar orden": asks to confirm the payment of this row. */
    method OpenPay(v: OrderView)
      modifies this
      requires Valid()
      ensures Valid()
      ensures modal == ModalConfig(true, Some(Pay), Some(v)) && activeMenuId == None
      ensures orders == old(orders) && loading == old(loading)
      ensures activeTab == old(activeTab) && searchTerm == old(searchTerm) && actionLoading == old(actionLoading)
    {
      modal := ModalConfig(true, Some(Pay), Some(v));
      activeMenuId := None;
    }

    /** "Cancelar orden": asks to confirm only when the row may be cancelled;
        otherwise the button does nothing. */
    method OpenCancel(v: OrderView)
      modifies this
      requires Valid()
      ensures Valid()
      ensures CanCancel(v.status) ==> modal == ModalConfig(true, Some(Cancel), Some(v)) && activeMenuId == None
      ensures !CanCancel(v.status) ==> modal == old(modal) && activeMenuId == old(activeMenuId)
      ensures orders == old(orders) && loading == old(loading)
      ensures activeTab == old(activeTab) && searchTerm == old(searchTerm) && actionLoading == old(actionLoading)
    {
      if CanCancel(v.status) {
        modal := ModalConfig(true, Some(Cancel), Some(v));
        activeMenuId := None;
      }
    }

    /** The dialog's cancel button. */
    method CloseModal()
      modifies this
      requires Valid()
      ensures Valid()
      ensures modal == ClosedModal
      ensures orders == old(orders) && loading == old(loading) && activeMenuId == old(activeMenuId)
      ensures activeTab == old(activeTab) && searchTerm == old(searchTerm) && actionLoading == old(actionLoading)
    {
      modal := ClosedModal;
    }

    /** The dialog's confirm button, `handlePayWithWompi` for a payment and
        `handleConfirmCancel` otherwise, with the stored employee id and both
        replies as inputs. It returns the request sent, the alert shown (if
        any) and whether the list is to be fetched again. The dialog closes
        and keeps its action and order. */
    method Confirm(stored: Option<string>, payReply: Http.Reply<WidgetJson>, cancelReply: Http.Reply<CancelJson>)
      returns (sent: Option<Request>, notice: Option<string>, refetch: bool)
      modifies this
      requires Valid() && modal.isOpen
      ensures Valid()
      ensures modal == old(modal).(isOpen := false) && !actionLoading
      ensures old(modal).kind == Some(Pay) ==>
                sent == Some(PayInit(PayRequestFor(old(modal).order.value, stored)))
                && notice == PayNotice(payReply) && !refetch
      ensures old(modal).kind == Some(Cancel) ==>
                sent == Some(CancelOrder(old(modal).order.value.id))
                && notice == Some(CancelOutcome(old(modal).order.value.id, cancelReply).0)
                && refetch == CancelOutcome(old(modal).order.value.id, cancelReply).1
      ensures sent.Some? && sent.value.CancelOrder? ==> CanCancel(old(modal).order.value.status)
      ensures orders == old(orders) && loading == old(loading) && activeMenuId == old(activeMenuId)
      ensures activeTab == old(activeTab) && searchTerm == old(searchTerm)
    {
      var v := modal.order.value;
      modal := modal.(isOpen := false);
      actionLoading := true;
      if modal.kind == Some(Pay) {
        sent := Some(PayInit(PayRequestFor(v, stored)));
        notice := PayNotice(payReply);
        refetch := false;
      } else {
        assert modal.kind.value == Cancel;
        sent := Some(CancelOrder(v.id));
        var outcome := CancelOutcome(v.id, cancelReply);
        notice := Some(outcome.0);
        refetch := outcome.1;
      }
      actionLoading := false;
    }
  }
}
