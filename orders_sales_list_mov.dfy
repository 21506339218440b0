/** The mobile sales-order list (`OrdersSalesListMov`). Orders are mapped to
    rows exactly as on the desktop list; the tabs are labelled with short
    names, the search is not trimmed, and each row is a card with its own
    action menu and confirmation dialog. */
module OrdersSalesListMov {
  import opened Wrappers
  import Seqs
  import Text
  import Http
  import OrdersSalesList

  type SaleOrder = OrdersSalesList.SaleOrder
  type OrderView = OrdersSalesList.OrderView

  const AllTab := "Todos"

  /** `STATUS_FILTERS`: each tab's value and label. */
  const StatusFilters: seq<(string, string)> := [
    (AllTab, "Todos"),
    (OrdersSalesList.Draft, "Borr./Env."),
    (OrdersSalesList.Pending, "Pend."),
    (OrdersSalesList.InTransit, "Tránsito"),
    (OrdersSalesList.Delivered, "Entregado"),
    (OrdersSalesList.Cancelled, "Cancel.")
  ]

  /** `statusShortLabel`. */
  const ShortLabels: map<string, string> := map[
    OrdersSalesList.Draft := "Borr./Env.",
    OrdersSalesList.Pending := "Pend.",
    OrdersSalesList.InTransit := "Tránsito",
    OrdersSalesList.Delivered := "Entregado",
    OrdersSalesList.Cancelled := "Cancel."
  ]

  /** The badge text: `statusShortLabel[status] ?? status`. */
  function BadgeLabel(status: string): string
  {
    if status in ShortLabels then ShortLabels[status] else status
  }

  /** Every status has a tab, and a card's badge reads the same as that tab. */
  lemma BadgeMatchesTab(state: string)
    ensures (OrdersSalesList.MapState(state), BadgeLabel(OrdersSalesList.MapState(state))) in StatusFilters
  {
    var s := OrdersSalesList.MapState(state);
    if s == OrdersSalesList.Draft {
      assert StatusFilters[1] == (s, BadgeLabel(s));
    } else if s == OrdersSalesList.Pending {
      assert StatusFilters[2] == (s, BadgeLabel(s));
    } else if s == OrdersSalesList.InTransit {
      assert StatusFilters[3] == (s, BadgeLabel(s));
    } else if s == OrdersSalesList.Delivered {
      assert StatusFilters[4] == (s, BadgeLabel(s));
    } else {
      assert StatusFilters[5] == (s, BadgeLabel(s));
    }
  }

  /** A status the table does not list is shown as it is. */
  lemma BadgeFallback(status: string)
    requires !OrdersSalesList.IsStatus(status)
    ensures BadgeLabel(status) == status
  {
  }

  /** The tab test and the search test: an empty search matches every row,
      any other is lower-cased (not trimmed) and must occur in the
      lower-cased id or customer. */
  predicate Shown(tab: string, search: string, v: OrderView)
  {
    (tab == AllTab || v.status == tab)
    && (search == ""
        || Text.Includes(Text.ToLower(v.id), Text.ToLower(search))
        || Text.Includes(Text.ToLower(v.customer), Text.ToLower(search)))
  }

  function ShownTest(tab: string, search: string): OrderView -> bool { (v: OrderView) => Shown(tab, search, v) }

  /** `filteredOrders`. */
  function Filtered(orders: seq<SaleOrder>, tab: string, search: string): seq<OrderView>
  {
    Seqs.Filter(OrdersSalesList.Rows(orders), ShownTest(tab, search))
  }

  lemma FilteredSpec(orders: seq<SaleOrder>, tab: string, search: string)
    ensures forall v :: v in Filtered(orders, tab, search) <==> v in OrdersSalesList.Rows(orders) && Shown(tab, search, v)
    ensures Seqs.IsSubseq(Filtered(orders, tab, search), OrdersSalesList.Rows(orders))
    ensures tab == AllTab && search == "" ==> Filtered(orders, tab, search) == OrdersSalesList.Rows(orders)
  {
    Seqs.FilterIsSubseq(OrdersSalesList.Rows(orders), ShownTest(tab, search));
    if tab == AllTab && search == "" {
      Seqs.FilterAll(OrdersSalesList.Rows(orders), ShownTest(tab, search));
    }
  }

  /** A search of white space alone lists every row on the desktop list but,
      here, only the rows whose id or customer holds that white space. */
  lemma BlankSearchDiffers(o: SaleOrder, search: string)
    requires search != "" && Text.AllSpace(search)
    requires !Text.Includes(Text.ToLower(o.name), search)
    requires !Text.Includes(Text.ToLower(OrdersSalesList.MapOrder(o).customer), search)
    ensures OrdersSalesList.MapOrder(o) in OrdersSalesList.Filtered([o], OrdersSalesList.AllTab, search)
    ensures OrdersSalesList.MapOrder(o) !in Filtered([o], AllTab, search)
  {
    OrdersSalesList.FilteredSpec([o], OrdersSalesList.AllTab, search);
    FilteredSpec([o], AllTab, search);
    assert Text.ToLower(search) == search by {
      forall i | 0 <= i < |search| ensures Text.ToLower(search)[i] == search[i] {
        assert !Text.IsUpperLetter(search[i]);
      }
    }
  }

  datatype Action = Pay | Cancel

  /** A card's `modalConfig`: open or not, and the action to confirm. */
  datatype CardModal = CardModal(isOpen: bool, kind: Option<Action>)

  const ClosedModal := CardModal(false, None)

  /** `OrderCard`: one row, its action menu, its dialog and its busy flag. */
  class OrderCard {
    const order: OrderView
    var showActions: bool
    var modal: CardModal
    var loading: bool

    /** The dialog is open only with an action, and a cancellation is only
        ever asked for an order that may be cancelled. */
    predicate Valid()
      reads this
    {
      (modal.isOpen ==> modal.kind.Some?)
      && (modal.kind == Some(Cancel) ==> OrdersSalesList.CanCancel(order.status))
    }

    constructor (v: OrderView)
      ensures Valid()
      ensures order == v && !showActions && modal == ClosedModal && !loading
    {
      order := v;
      showActions := false;
      modal := ClosedModal;
      loading := false;
    }

    /** The menu button. */
    method ToggleActions()
      modifies this
      requires Valid()
      ensures Valid()
      ensures showActions == !old(showActions) && modal == old(modal) && loading == old(loading)
    {
      showActions := !showActions;
    }

    /** The overlay behind the open menu: a click closes it. */
    method CloseActions()
      modifies this
      requires Valid()
      ensures Valid()
      ensures !showActions && modal == old(modal) && loading == old(loading)
    {
      showActions := false;
    }

    /** "Pagar orden". */
    method OpenPay()
      modifies this
      requires Valid()
      ensures Valid()
      ensures modal == CardModal(true, Some(Pay)) && !showActions && loading == old(loading)
    {
      modal := CardModal(true, Some(Pay));
      showActions := false;
    }

    /** "Cancelar orden": does nothing unless the order may be cancelled. */
    method OpenCancel()
      modifies this
      requires Valid()
      ensures Valid()
      ensures OrdersSalesList.CanCancel(order.status) ==> modal == CardModal(true, Some(Cancel)) && !showActions
      ensures !OrdersSalesList.CanCancel(order.status) ==> modal == old(modal) && showActions == old(showActions)
      ensures loading == old(loading)
    {
      if OrdersSalesList.CanCancel(order.status) {
        modal := CardModal(true, Some(Cancel));
        showActions := false;
      }
    }

    /** The dialog's cancel button. */
    method CloseModal()
      modifies this
      requires Valid()
      ensures Valid()
      ensures modal == ClosedModal && showActions == old(showActions) && loading == old(loading)
    {
      modal := ClosedModal;
    }

    /** The dialog's confirm button: the payment for "pay", the cancellation
        otherwise, with the stored employee id and both replies as inputs.
        Returns the request sent, the alert shown (if any) and whether the
        list is to be fetched again; the dialog and the menu end closed. */
    method Confirm(stored: Option<string>, payReply: Http.Reply<OrdersSalesList.WidgetJson>,
                   cancelReply: Http.Reply<OrdersSalesList.CancelJson>)
      returns (sent: OrdersSalesList.Request, notice: Option<string>, refresh: bool)
      modifies this
      requires Valid() && modal.isOpen
      ensures Valid()
      ensures modal == ClosedModal && !loading && !showActions
      ensures old(modal).kind == Some(Pay) ==>
                sent == OrdersSalesList.PayInit(OrdersSalesList.PayRequestFor(order, stored))
                && notice == OrdersSalesList.PayNotice(payReply) && !refresh
      ensures old(modal).kind == Some(Cancel) ==>
                sent == OrdersSalesList.CancelOrder(order.id)
                && notice == Some(OrdersSalesList.CancelOutcome(order.id, cancelReply).0)
                && refresh == OrdersSalesList.CancelOutcome(order.id, cancelReply).1
      ensures sent.CancelOrder? ==> OrdersSalesList.CanCancel(order.status)
    {
      var kind := modal.kind;
      modal := ClosedModal;
      loading := true;
      if kind == Some(Pay) {
        sent := OrdersSalesList.PayInit(OrdersSalesList.PayRequestFor(order, stored));
        notice := OrdersSalesList.PayNotice(payReply);
        refresh := false;
      } else {
        assert kind.value == Cancel;
        sent := OrdersSalesList.CancelOrder(order.id);
        var outcome := OrdersSalesList.CancelOutcome(order.id, cancelReply);
        notice := Some(outcome.0);
        refresh := outcome.1;
      }
      loading := false;
      showActions := false;
    }
  }

  /** The page: the orders, the tab, the search and the loading flag. */
  class OrdersSalesListMovPage {
    var orders: seq<SaleOrder>
    var activeTab: string
    var searchTerm: string
    var loading: bool

    /** The cards on screen. */
    function Shown(): seq<OrderView>
      reads this
    {
      Filtered(orders, activeTab, searchTerm)
    }

    constructor ()
      ensures orders == [] && activeTab == AllTab && searchTerm == "" && !loading
      ensures Shown() == []
    {
      orders := [];
      activeTab := AllTab;
      searchTerm := "";
      loading := false;
    }

    /** The `i`-th status filter button: `setActiveTab(value)`. */
    method SelectTab(i: nat)
      modifies this
      requires i < |StatusFilters|
      ensures activeTab == StatusFilters[i].0 && Shown() == Filtered(orders, StatusFilters[i].0, searchTerm)
      ensures orders == old(orders) && searchTerm == old(searchTerm) && loading == old(loading)
    {
      activeTab := StatusFilters[i].0;
    }

    /** The search box: `setSearchTerm(e.target.value)`. */
    method SetSearch(term: string)
      modifies this
      ensures searchTerm == term && Shown() == Filtered(orders, activeTab, term)
      ensures orders == old(orders) && activeTab == old(activeTab) && loading == old(loading)
    {
      searchTerm := term;
    }

    /** `fetchOrders`, with the employee id read at render and the reply as
        inputs: nothing without an id; otherwise the orders are replaced when
        the reply says `success`. */
    method FetchOrders(stored: Option<string>, reply: Http.Reply<OrdersSalesList.OrdersJson>) returns (requested: bool)
      modifies this
      ensures requested <==> Http.Present(stored)
      ensures orders == if requested && OrdersSalesList.Replaces(reply) then reply.body.value.orders else old(orders)
      ensures loading == if requested then false else old(loading)
      ensures activeTab == old(activeTab) && searchTerm == old(searchTerm)
    {
      if !Http.Present(stored) {
        return false;
      }
      requested := true;
      loading := true;
      if OrdersSalesList.Replaces(reply) {
        orders := reply.body.value.orders;
      }
      loading := false;
    }

    /** The "Refrescar" button: `fetchOrders`, disabled while loading. */
    method Refresh(stored: Option<string>, reply: Http.Reply<OrdersSalesList.OrdersJson>) returns (requested: bool)
      modifies this
      ensures requested <==> !old(loading) && Http.Present(stored)
      ensures orders == if requested && OrdersSalesList.Replaces(reply) then reply.body.value.orders else old(orders)
      ensures loading == if requested then false else old(loading)
      ensures activeTab == old(activeTab) && searchTerm == old(searchTerm)
    {
      if loading {
        return false;
      }
      requested := FetchOrders(stored, reply);
    }
  }
}
