/** The mobile checkout page (`CreateOrderMov`). It shares the cart updaters
    and the price rule with the desktop page, adds `handleDecrease`, and
    finalizes differently: order lines carry no name, `employee_id` is sent
    unchecked, and once the order is accepted both dialog buttons empty the
    cart and the payment is offered whatever the order id and amount. */
module CreateOrderMov {
  import opened Wrappers
  import Seqs
  import Text
  import Http
  import Dialogs
  import opened Catalog
  import Cart
  import CreateOrder

  const DefaultError := "Error al crear orden"

  /** One element of `order_line` (no `name` here). */
  datatype OrderLine = OrderLine(productId: ProductId, qty: int, priceUnit: real)

  /** `employee_id`: left out (`undefined`) when nothing usable is stored,
      else `parseInt`'s result, whose NaN (`None`) serialises as `null`. */
  datatype EmployeeField = Omitted | Sent(parsed: Option<int>)

  datatype Payload = Payload(partnerId: int, orderLines: seq<OrderLine>, employeeId: EmployeeField)

  datatype Submission = Submission(payload: Payload, amountInCents: int)

  function ToOrderLine(l: Cart.Line): OrderLine
  {
    OrderLine(l.item.id, l.qty, NumericPrice(l.item))
  }

  function OrderLines(cart: seq<Cart.Line>): (r: seq<OrderLine>)
    ensures |r| == |cart|
    ensures forall i :: 0 <= i < |cart| ==>
              r[i].productId == cart[i].item.id && r[i].qty == cart[i].qty
              && r[i].priceUnit == NumericPrice(cart[i].item)
  {
    Seqs.Map(cart, ToOrderLine)
  }

  function EmployeeId(stored: Option<string>): (r: EmployeeField)
    ensures r.Omitted? <==> !Http.Present(stored)
    ensures r.Sent? ==> r.parsed == Text.ParseInt(stored.value)
  {
    if Http.Present(stored) then Sent(Text.ParseInt(stored.value)) else Omitted
  }

  function MakePayload(partner: Partner, cart: seq<Cart.Line>, stored: Option<string>): Payload
  {
    Payload(partner.id, OrderLines(cart), EmployeeId(stored))
  }

  /** Unlike the desktop page, a stored "0" is sent as 0. */
  lemma EmployeeIdZeroSent()
    ensures EmployeeId(Some("0")) == Sent(Some(0))
    ensures CreateOrder.EmployeeId(Some("0")) == None
  {
    Text.ParseIntOfDigits("0");
  }

  /** What a dialog button does; `NoOp` is the `() => {}` callback. */
  datatype Effect =
    | NoOp
    | Close
    | CloseAndClearCart
    | CloseClearCartAndPay(order: Option<CreateOrder.OrderRef>, amountInCents: int, currency: string)

  predicate Clears(e: Effect)
  {
    e.CloseAndClearCart? || e.CloseClearCartAndPay?
  }

  type Dialog = Dialogs.Modal<Effect>

  const InitialDialog: Dialog :=
    Dialogs.Modal(false, "", "", NoOp, NoOp, "Aceptar", false, true)

  const PartnerRequired: Dialog :=
    Dialogs.Modal(true, "Cliente requerido", "Selecciona un cliente.", Close, NoOp, "Entendido", false, false)

  const EmptyCart: Dialog :=
    Dialogs.Modal(true, "Carrito vacío", "Agrega productos.", Close, NoOp, "Entendido", false, false)

  function ErrorDialog(message: string): (d: Dialog)
    ensures d.title == "Error" && d.isDanger && d.message != ""
    ensures d.onConfirm == Close && d.onCancel == NoOp
  {
    Dialogs.Modal(true, "Error", Http.Or(message, DefaultError), Close, NoOp, "Continuar", true, false)
  }

  function Validation(partner: Option<Partner>, cart: seq<Cart.Line>): Option<Dialog>
  {
    if partner.None? then Some(PartnerRequired)
    else if |cart| == 0 then Some(EmptyCart)
    else None
  }

  /** `${data.order_id}`: a missing id prints as "undefined". */
  function RefText(r: Option<CreateOrder.OrderRef>): string
  {
    if r.None? then "undefined" else CreateOrder.RefText(r.value)
  }

  /** The dialog shown once the reply to a validated request is in. A body
      `res.json()` cannot parse fails with the parser's own message. */
  function Outcome(amountInCents: int, reply: Http.Reply<CreateOrder.OrderJson>): Dialog
  {
    match reply
    case Thrown(m) => ErrorDialog(m)
    case Response(ok, _, _, body) =>
      match body
      case Unparsable(e) => ErrorDialog(e)
      case Json(data) =>
        if !ok || data.success == Some(false) then ErrorDialog(Http.Or(data.message, DefaultError))
        else
          Dialogs.Modal(true, "¡Orden creada!", "Orden " + RefText(data.orderId) + " creada. ¿Pagar ahora?",
                        CloseClearCartAndPay(data.orderId, amountInCents, CreateOrder.Currency),
                        CloseAndClearCart, "Pagar ahora", false, true)
  }

  lemma ValidationOrder(partner: Option<Partner>, cart: seq<Cart.Line>)
    ensures partner.None? ==> Validation(partner, cart) == Some(PartnerRequired)
    ensures partner.Some? && cart == [] ==> Validation(partner, cart) == Some(EmptyCart)
    ensures Validation(partner, cart).None? <==> partner.Some? && cart != []
    ensures Validation(partner, cart).Some? ==>
              var d := Validation(partner, cart).value;
              d.isOpen && !Clears(d.onConfirm) && !Clears(d.onCancel)
  {
  }

  /** Each button empties the cart exactly when the order was accepted. */
  lemma CartClearedIffAccepted(amountInCents: int, reply: Http.Reply<CreateOrder.OrderJson>)
    ensures Clears(Outcome(amountInCents, reply).onConfirm) <==> CreateOrder.Accepted(reply)
    ensures Clears(Outcome(amountInCents, reply).onCancel) <==> CreateOrder.Accepted(reply)
  {
  }

  /** Once accepted, the payment is offered for whatever id came back
      (possibly none) and whatever the amount, even zero. */
  lemma PaymentAlwaysOffered(amountInCents: int, reply: Http.Reply<CreateOrder.OrderJson>)
    requires CreateOrder.Accepted(reply)
    ensures Outcome(amountInCents, reply).onConfirm
            == CloseClearCartAndPay(reply.body.value.orderId, amountInCents, "COP")
  {
  }

  /** With no `order_id` in the reply the dialog reads "Orden undefined creada." */
  lemma MissingIdMessage(amountInCents: int)
    ensures Outcome(amountInCents, Http.Response(true, 200, "OK", Http.Json(CreateOrder.OrderJson(None, "", None)))).message
            == "Orden undefined creada. ¿Pagar ahora?"
  {
  }

  /** The desktop page refuses the same accepted reply a payment when the
      amount is zero, this page offers it. */
  lemma ZeroAmountDiffers(data: CreateOrder.OrderJson)
    requires CreateOrder.Truthy(data.orderId) && data.success != Some(false)
    ensures Outcome(0, Http.Response(true, 200, "OK", Http.Json(data))).onConfirm.CloseClearCartAndPay?
    ensures !CreateOrder.Outcome(0, Http.Response(true, 200, "OK", Http.Json(data))).onConfirm.CloseClearCartAndPay?
  {
  }

  class CreateOrderMovPage {
    var cart: seq<Cart.Line>
    var selectedPartner: Option<Partner>
    var orderSubmitting: bool
    var modalState: Dialog

    constructor ()
      ensures cart == [] && selectedPartner == None && !orderSubmitting
      ensures modalState == InitialDialog
    {
      cart := [];
      selectedPartner := None;
      orderSubmitting := false;
      modalState := InitialDialog;
    }

    method SelectPartner(p: Partner)
      modifies this
      ensures selectedPartner == Some(p)
      ensures cart == old(cart) && orderSubmitting == old(orderSubmitting) && modalState == old(modalState)
    {
      selectedPartner := Some(p);
    }

    /** `handleAdd`. */
    method HandleAdd(p: Product)
      modifies this
      ensures cart == Cart.Add(old(cart), p)
      ensures Cart.Valid(old(cart)) ==> Cart.Valid(cart)
      ensures selectedPartner == old(selectedPartner) && orderSubmitting == old(orderSubmitting)
      ensures modalState == old(modalState)
    {
      if Cart.Valid(cart) { Cart.AddValid(cart, p); }
      cart := Cart.Add(cart, p);
    }

    /** `handleDecrease`: the button passes the product, the cart is keyed by its id. */
    method HandleDecrease(p: Product)
      modifies this
      ensures cart == Cart.Decrease(old(cart), p.id)
      ensures Cart.Valid(old(cart)) ==> Cart.Valid(cart)
      ensures selectedPartner == old(selectedPartner) && orderSubmitting == old(orderSubmitting)
      ensures modalState == old(modalState)
    {
      if Cart.Valid(cart) { Cart.DecreaseValid(cart, p.id); }
      cart := Cart.Decrease(cart, p.id);
    }

    /** `handleRemove`. */
    method HandleRemove(id: ProductId)
      modifies this
      ensures cart == Cart.Remove(old(cart), id)
      ensures Cart.Valid(old(cart)) ==> Cart.Valid(cart)
      ensures selectedPartner == old(selectedPartner) && orderSubmitting == old(orderSubmitting)
      ensures modalState == old(modalState)
    {
      if Cart.Valid(cart) { Cart.RemoveValid(cart, id); }
      cart := Cart.Remove(cart, id);
    }

    /** `handleQtyChange`. */
    method HandleQtyChange(id: ProductId, newQty: int)
      modifies this
      ensures cart == Cart.ChangeQty(old(cart), id, newQty)
      ensures Cart.Valid(old(cart)) ==> Cart.Valid(cart)
      ensures selectedPartner == old(selectedPartner) && orderSubmitting == old(orderSubmitting)
      ensures modalState == old(modalState)
    {
      if Cart.Valid(cart) { Cart.ChangeQtyValid(cart, id, newQty); }
      cart := Cart.ChangeQty(cart, id, newQty);
    }

    /** `handleFinalizeOrder` up to the `fetch`. The panel's button is
        disabled while an order is being submitted, so nothing happens then. */
    method Finalize(stored: Option<string>) returns (sent: Option<Submission>)
      modifies this
      ensures old(orderSubmitting) ==> sent.None? && modalState == old(modalState) && orderSubmitting
      ensures !old(orderSubmitting) ==> (sent.None? <==> Validation(old(selectedPartner), old(cart)).Some?)
      ensures !old(orderSubmitting) && sent.None? ==>
                modalState == Validation(old(selectedPartner), old(cart)).value
                && !orderSubmitting
      ensures sent.Some? ==>
                sent.value == Submission(MakePayload(old(selectedPartner).value, old(cart), stored),
                                         Cart.AmountInCents(old(cart)))
                && orderSubmitting && modalState == old(modalState)
      ensures cart == old(cart) && selectedPartner == old(selectedPartner)
    {
      if orderSubmitting {
        return None;
      }
      var v := Validation(selectedPartner, cart);
      if v.Some? {
        modalState := v.value;
        return None;
      }
      var amountInCents := Cart.AmountInCents(cart);
      orderSubmitting := true;
      sent := Some(Submission(MakePayload(selectedPartner.value, cart, stored), amountInCents));
    }

    /** The rest of `handleFinalizeOrder` once the reply to `s` is in, while
        the request is in flight. */
    method Complete(s: Submission, reply: Http.Reply<CreateOrder.OrderJson>)
      requires orderSubmitting
      modifies this
      ensures modalState == Outcome(s.amountInCents, reply)
      ensures !orderSubmitting
      ensures cart == old(cart) && selectedPartner == old(selectedPartner)
    {
      modalState := Outcome(s.amountInCents, reply);
      orderSubmitting := false;
    }

    /** The confirm button of the open dialog; returns the payment to start,
        if any. */
    method Confirm() returns (payment: Option<Effect>)
      requires modalState.isOpen
      modifies this
      ensures modalState == (if old(modalState).onConfirm.NoOp? then old(modalState)
                             else Dialogs.Closed(old(modalState)))
      ensures cart == (if Clears(old(modalState).onConfirm) then [] else old(cart))
      ensures payment.Some? <==> old(modalState).onConfirm.CloseClearCartAndPay?
      ensures payment.Some? ==> payment.value == old(modalState).onConfirm
      ensures selectedPartner == old(selectedPartner) && orderSubmitting == old(orderSubmitting)
    {
      var e := modalState.onConfirm;
      payment := None;
      if !e.NoOp? {
        modalState := Dialogs.Closed(modalState);
      }
      if Clears(e) {
        cart := [];
      }
      if e.CloseClearCartAndPay? {
        payment := Some(e);
      }
    }

    /** The cancel button (or Escape) of the open dialog; `NoOp` leaves even
        the dialog open. */
    method Cancel()
      requires modalState.isOpen
      modifies this
      ensures modalState == (if old(modalState).onCancel.NoOp? then old(modalState)
                             else Dialogs.Closed(old(modalState)))
      ensures cart == (if Clears(old(modalState).onCancel) then [] else old(cart))
      ensures selectedPartner == old(selectedPartner) && orderSubmitting == old(orderSubmitting)
    {
      var e := modalState.onCancel;
      if !e.NoOp? {
        modalState := Dialogs.Closed(modalState);
      }
      if Clears(e) {
        cart := [];
      }
    }
  }
}
