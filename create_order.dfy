/** The desktop checkout page (`CreateOrder`): the cart it keeps, the
    selected customer, and `handleFinalizeOrder`, which validates, posts the
    sale order and decides, through the dialog it opens, when the cart is
    emptied and when the online payment is offered. */
module CreateOrder {
  import opened Wrappers
  import Seqs
  import Text
  import Http
  import Dialogs
  import opened Catalog
  import Cart

  const Currency := "COP"
  const DefaultError := "Ocurrió un error al crear la orden."
  const NotJsonError := "El servidor devolvió una respuesta no válida al crear la orden."
  const MissingIdNotice := "La orden ha sido creada exitosamente, pero no se pudo iniciar el pago en línea (faltó order_id en la respuesta)."
  const CreatedNotice := "La orden ha sido creada exitosamente."

  // ---------------------------------------------------------------------
  // The request and the reply
  // ---------------------------------------------------------------------

  /** `order_id` as the server may send it: a number or a string. */
  datatype OrderRef = NumRef(n: int) | StrRef(s: string)

  /** JavaScript truthiness of `data.order_id` (absent, 0 and "" are falsy). */
  predicate Truthy(r: Option<OrderRef>)
  {
    match r
    case None => false
    case Some(NumRef(n)) => n != 0
    case Some(StrRef(s)) => s != ""
  }

  /** `${orderId}` in a template string. */
  function RefText(r: OrderRef): string
  {
    match r
    case NumRef(n) => Text.IntToString(n)
    case StrRef(s) => s
  }

  /** The JSON object `/create-sale-order` answers with; a missing `message`
      is the empty string, a missing `success` is `None`. */
  datatype OrderJson = OrderJson(success: Option<bool>, message: string, orderId: Option<OrderRef>)

  /** One element of `order_line`. */
  datatype OrderLine = OrderLine(productId: ProductId, qty: int, name: string, priceUnit: real)

  /** The body posted to `/create-sale-order`; `employeeId` is `None` when
      the property is not set at all. */
  datatype Payload = Payload(partnerId: int, orderLines: seq<OrderLine>, employeeId: Option<int>)

  /** What a finalize that passed validation hands to the awaiting
      continuation: the request and the amount it captured before sending. */
  datatype Submission = Submission(payload: Payload, amountInCents: int)

  function ToOrderLine(l: Cart.Line): OrderLine
  {
    OrderLine(l.item.id, l.qty, l.item.name, NumericPrice(l.item))
  }

  /** `cart.map(...)`: one order line per cart line, in cart order, with the
      unit price the page displays. */
  function OrderLines(cart: seq<Cart.Line>): (r: seq<OrderLine>)
    ensures |r| == |cart|
    ensures forall i :: 0 <= i < |cart| ==>
              r[i].productId == cart[i].item.id && r[i].qty == cart[i].qty
              && r[i].name == cart[i].item.name && r[i].priceUnit == NumericPrice(cart[i].item)
  {
    Seqs.Map(cart, ToOrderLine)
  }

  /** `employee_id` is attached only when the stored text parses to a
      number that is neither NaN nor 0. */
  function EmployeeId(stored: Option<string>): (r: Option<int>)
    ensures r.Some? <==> Http.Present(stored) && Text.ParseInt(stored.value).Some?
                         && Text.ParseInt(stored.value).value != 0
    ensures r.Some? ==> r.value != 0 && Text.ParseInt(stored.value) == r
  {
    if !Http.Present(stored) then None
    else match Text.ParseInt(stored.value)
      case None => None
      case Some(v) => if v != 0 then Some(v) else None
  }

  function MakePayload(partner: Partner, cart: seq<Cart.Line>, stored: Option<string>): Payload
  {
    Payload(partner.id, OrderLines(cart), EmployeeId(stored))
  }

  // ---------------------------------------------------------------------
  // The dialog
  // ---------------------------------------------------------------------

  /** What a dialog button does: close it, close it and empty the cart, or
      additionally start the online payment for an order. */
  datatype Effect =
    | Close
    | CloseAndClearCart
    | CloseClearCartAndPay(order: OrderRef, amountInCents: int, currency: string)

  predicate Clears(e: Effect)
  {
    !e.Close?
  }

  type Dialog = Dialogs.Modal<Effect>

  const InitialDialog: Dialog :=
    Dialogs.Modal(false, "", "", Close, Close, "Aceptar", false, true)

  const PartnerRequired: Dialog :=
    Dialogs.Modal(true, "Cliente requerido", "Selecciona un cliente antes de crear la orden.",
                  Close, Close, "Entendido", false, false)

  const EmptyCart: Dialog :=
    Dialogs.Modal(true, "Carrito vacío", "Agrega al menos un producto para crear la orden.",
                  Close, Close, "Entendido", false, false)

  /** The `catch` dialog: `err?.message || "Ocurrió un error al crear la orden."`. */
  function ErrorDialog(message: string): (d: Dialog)
    ensures d.title == "Error" && d.isDanger && d.message != ""
    ensures d.onConfirm == Close && d.onCancel == Close
  {
    Dialogs.Modal(true, "Error", Http.Or(message, DefaultError), Close, Close, "Continuar", true, false)
  }

  function Notice(message: string): Dialog
  {
    Dialogs.Modal(true, "Orden creada", message, CloseAndClearCart, Close, "Aceptar", false, false)
  }

  /** Validation, partner first: the dialog shown instead of sending, if any. */
  function Validation(partner: Option<Partner>, cart: seq<Cart.Line>): Option<Dialog>
  {
    if partner.None? then Some(PartnerRequired)
    else if |cart| == 0 then Some(EmptyCart)
    else None
  }

  /** The request was accepted: a response with a 2xx status whose body is
      JSON and does not say `success: false`. */
  predicate Accepted(reply: Http.Reply<OrderJson>)
  {
    reply.Response? && reply.ok && reply.body.Json? && reply.body.value.success != Some(false)
  }

  /** The dialog the page shows once the reply to a validated request is in. */
  function Outcome(amountInCents: int, reply: Http.Reply<OrderJson>): Dialog
  {
    match reply
    case Thrown(m) => ErrorDialog(m)
    case Response(ok, status, statusText, body) =>
      match body
      case Unparsable(_) => ErrorDialog(NotJsonError)
      case Json(data) =>
        if !ok || data.success == Some(false) then
          ErrorDialog(Http.Or(data.message, "Error HTTP " + Text.IntToString(status) + " " + statusText))
        else if !Truthy(data.orderId) then Notice(MissingIdNotice)
        else if amountInCents <= 0 then Notice(CreatedNotice)
        else
          Dialogs.Modal(true, "¡Orden creada!",
                        "Orden de Venta " + RefText(data.orderId.value) + " creada con éxito. ¿Deseas pagar ahora con Wompi?",
                        CloseClearCartAndPay(data.orderId.value, amountInCents, Currency), Close,
                        "Pagar ahora", false, true)
  }

  // ---------------------------------------------------------------------
  // Properties of the checkout rules
  // ---------------------------------------------------------------------

  /** The customer is checked before the cart; a request is sent exactly
      when both checks pass. */
  lemma ValidationOrder(partner: Option<Partner>, cart: seq<Cart.Line>)
    ensures partner.None? ==> Validation(partner, cart) == Some(PartnerRequired)
    ensures partner.Some? && cart == [] ==> Validation(partner, cart) == Some(EmptyCart)
    ensures Validation(partner, cart).None? <==> partner.Some? && cart != []
    ensures Validation(partner, cart).Some? ==>
              var d := Validation(partner, cart).value;
              d.isOpen && !Clears(d.onConfirm) && !Clears(d.onCancel)
  {
  }

  /** Every failure (network error, non-JSON body, error status or
      `success: false`) ends in an error dialog neither of whose buttons
      touches the cart. */
  lemma FailureKeepsCart(amountInCents: int, reply: Http.Reply<OrderJson>)
    requires !Accepted(reply)
    ensures Outcome(amountInCents, reply).title == "Error"
    ensures Outcome(amountInCents, reply).isDanger
    ensures !Clears(Outcome(amountInCents, reply).onConfirm)
    ensures !Clears(Outcome(amountInCents, reply).onCancel)
  {
  }

  /** Dismissing the outcome dialog never empties the cart; confirming it
      empties the cart exactly when the order was accepted. */
  lemma CartClearedOnlyOnConfirmedSuccess(amountInCents: int, reply: Http.Reply<OrderJson>)
    ensures !Clears(Outcome(amountInCents, reply).onCancel)
    ensures Clears(Outcome(amountInCents, reply).onConfirm) <==> Accepted(reply)
  {
    if !Accepted(reply) {
      FailureKeepsCart(amountInCents, reply);
    }
  }

  /** The payment is offered exactly when the order was accepted with a
      truthy `order_id` and a positive amount, and then it is for that
      order, that amount, in pesos. */
  lemma PaymentOfferedIff(amountInCents: int, reply: Http.Reply<OrderJson>)
    ensures Outcome(amountInCents, reply).onConfirm.CloseClearCartAndPay?
            <==> Accepted(reply) && Truthy(reply.body.value.orderId) && amountInCents > 0
    ensures Outcome(amountInCents, reply).onConfirm.CloseClearCartAndPay? ==>
              Outcome(amountInCents, reply).onConfirm
              == CloseClearCartAndPay(reply.body.value.orderId.value, amountInCents, "COP")
              && Outcome(amountInCents, reply).showCancel
  {
  }

  /** The error text prefers the server's `message`, then the HTTP status. */
  lemma RejectedMessage(amountInCents: int, status: int, statusText: string, data: OrderJson, ok: bool)
    requires !ok || data.success == Some(false)
    ensures var d := Outcome(amountInCents, Http.Response(ok, status, statusText, Http.Json(data)));
            (data.message != "" ==> d.message == data.message)
            && (data.message == "" ==> d.message == "Error HTTP " + Text.IntToString(status) + " " + statusText)
  {
  }

  /** A stored id that reads as 0, or an empty one, is left out. */
  lemma EmployeeIdZeroLeftOut()
    ensures EmployeeId(Some("0")) == None
    ensures EmployeeId(Some("")) == None
  {
    Text.ParseIntOfDigits("0");
  }

  // ---------------------------------------------------------------------
  // The page
  // ---------------------------------------------------------------------

  class CreateOrderPage {
    var cart: seq<Cart.Line>
    var selectedPartner: Option<Partner>
    var orderSubmitting: bool
    var modalState: Dialog

    constructor ()
      ensures cart == [] && selectedPartner == None && !orderSubmitting
      ensures modalState == InitialDialog
    {
      cart := [];
      selectedPartner := None;
      orderSubmitting := false;
      modalState := InitialDialog;
    }

    method SelectPartner(p: Partner)
      modifies this
      ensures selectedPartner == Some(p)
      ensures cart == old(cart) && orderSubmitting == old(orderSubmitting) && modalState == old(modalState)
    {
      selectedPartner := Some(p);
    }

    /** `handleAdd`. */
    method HandleAdd(p: Product)
      modifies this
      ensures cart == Cart.Add(old(cart), p)
      ensures Cart.Valid(old(cart)) ==> Cart.Valid(cart)
      ensures selectedPartner == old(selectedPartner) && orderSubmitting == old(orderSubmitting)
      ensures modalState == old(modalState)
    {
      if Cart.Valid(cart) { Cart.AddValid(cart, p); }
      cart := Cart.Add(cart, p);
    }

    /** `handleRemove`. */
    method HandleRemove(id: ProductId)
      modifies this
      ensures cart == Cart.Remove(old(cart), id)
      ensures Cart.Valid(old(cart)) ==> Cart.Valid(cart)
      ensures selectedPartner == old(selectedPartner) && orderSubmitting == old(orderSubmitting)
      ensures modalState == old(modalState)
    {
      if Cart.Valid(cart) { Cart.RemoveValid(cart, id); }
      cart := Cart.Remove(cart, id);
    }

    /** `handleQtyChange`. */
    method HandleQtyChange(id: ProductId, newQty: int)
      modifies this
      ensures cart == Cart.ChangeQty(old(cart), id, newQty)
      ensures Cart.Valid(old(cart)) ==> Cart.Valid(cart)
      ensures selectedPartner == old(selectedPartner) && orderSubmitting == old(orderSubmitting)
      ensures modalState == old(modalState)
    {
      if Cart.Valid(cart) { Cart.ChangeQtyValid(cart, id, newQty); }
      cart := Cart.ChangeQty(cart, id, newQty);
    }

    /** `handleFinalizeOrder` up to the `fetch`: either a validation dialog
        and no request, or the request (with the amount captured now) and
        `orderSubmitting` set. `stored` is the `employee_id` read from local
        storage. The panel's button is disabled while an order is being
        submitted, so nothing happens then. */
    method Finalize(stored: Option<string>) returns (sent: Option<Submission>)
      modifies this
      ensures old(orderSubmitting) ==> sent.None? && modalState == old(modalState) && orderSubmitting
      ensures !old(orderSubmitting) ==> (sent.None? <==> Validation(old(selectedPartner), old(cart)).Some?)
      ensures !old(orderSubmitting) && sent.None? ==>
                modalState == Validation(old(selectedPartner), old(cart)).value
                && !orderSubmitting
      ensures sent.Some? ==>
                sent.value == Submission(MakePayload(old(selectedPartner).value, old(cart), stored),
                                         Cart.AmountInCents(old(cart)))
                && orderSubmitting && modalState == old(modalState)
      ensures cart == old(cart) && selectedPartner == old(selectedPartner)
    {
      if orderSubmitting {
        return None;
      }
      var v := Validation(selectedPartner, cart);
      if v.Some? {
        modalState := v.value;
        return None;
      }
      var amountInCents := Cart.AmountInCents(cart);
      orderSubmitting := true;
      sent := Some(Submission(MakePayload(selectedPartner.value, cart, stored), amountInCents));
    }

    /** The rest of `handleFinalizeOrder` once the reply to `s` is in (so
        while the request is in flight): the outcome dialog, and
        `orderSubmitting` cleared in `finally`. */
    method Complete(s: Submission, reply: Http.Reply<OrderJson>)
      requires orderSubmitting
      modifies this
      ensures modalState == Outcome(s.amountInCents, reply)
      ensures !orderSubmitting
      ensures cart == old(cart) && selectedPartner == old(selectedPartner)
    {
      modalState := Outcome(s.amountInCents, reply);
      orderSubmitting := false;
    }

    /** The dialog's confirm button. The payment to start, if any, is
        returned; the payment widget itself is not part of this model. A
        closed dialog renders nothing, so its buttons exist only while open. */
    method Confirm() returns (payment: Option<Effect>)
      requires modalState.isOpen
      modifies this
      ensures modalState == Dialogs.Closed(old(modalState))
      ensures cart == (if Clears(old(modalState).onConfirm) then [] else old(cart))
      ensures payment.Some? <==> old(modalState).onConfirm.CloseClearCartAndPay?
      ensures payment.Some? ==> payment.value == old(modalState).onConfirm
      ensures selectedPartner == old(selectedPartner) && orderSubmitting == old(orderSubmitting)
    {
      var e := modalState.onConfirm;
      modalState := Dialogs.Closed(modalState);
      payment := None;
      if Clears(e) {
        cart := [];
      }
      if e.CloseClearCartAndPay? {
        payment := Some(e);
      }
    }

    /** The dialog's cancel button (or Escape), only while the dialog is open. */
    method Cancel()
      requires modalState.isOpen
      modifies this
      ensures modalState == Dialogs.Closed(old(modalState))
      ensures cart == (if Clears(old(modalState).onCancel) then [] else old(cart))
      ensures selectedPartner == old(selectedPartner) && orderSubmitting == old(orderSubmitting)
    {
      var e := modalState.onCancel;
      modalState := Dialogs.Closed(modalState);
      if Clears(e) {
        cart := [];
      }
    }
  }
}
