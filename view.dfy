/** What the order screen renders, as a function of its queries and flags
    (OrderScreen.jsx, the returned element). Only the parts that gate actions are kept. */
module View {
  import opened Values
  import opened Orders
  import LoadGate

  /** What the screen reads when it renders. */
  datatype ViewInputs = ViewInputs(
    isLoading: bool,          // order query loading
    error: bool,              // order query failed
    order: Option<Order>,     // order query data
    loadingPay: bool,         // pay mutation in flight
    loadingDeliver: bool,     // deliver mutation in flight
    isPending: bool,          // PayPal script still pending
    userInfo: Option<UserInfo>)

  /** Inside the payment section: a spinner while the script is pending, else the PayPal buttons. */
  datatype PaymentBody = PendingLoader | PayPalButtons

  /** The payment section; `mutationLoader` is the spinner shown while the pay mutation is in flight. */
  datatype PaymentSection = PaymentSection(mutationLoader: bool, body: PaymentBody)

  /** The action-bearing part of the detail view. */
  datatype DetailView = DetailView(payment: Option<PaymentSection>, deliverLoader: bool, markDelivered: bool)

  /** The whole screen. `RenderThrows`: neither loading nor failed, yet no order data,
      so reading the order's fields throws. */
  datatype Screen = ShowLoader | ShowError | ShowDetails(detail: DetailView) | RenderThrows

  /** The payment section exists only while the order is unpaid. */
  function PaymentSectionOf(order: Order, loadingPay: bool, isPending: bool): (p: Option<PaymentSection>)
    ensures p.Some? <==> !order.isPaid
    ensures p.Some? ==> p.value.mutationLoader == loadingPay
    ensures p.Some? ==> (p.value.body == PayPalButtons <==> !isPending)
  {
    if order.isPaid then None
    else Some(PaymentSection(loadingPay, if isPending then PendingLoader else PayPalButtons))
  }

  /** "Mark As Delivered" is offered to a signed-in administrator for a paid, undelivered order. */
  predicate MarkDeliveredOffered(userInfo: Option<UserInfo>, order: Order) {
    userInfo.Some? && userInfo.value.isAdmin && order.isPaid && !order.isDelivered
  }

  function Render(v: ViewInputs): (s: Screen)
    ensures s.ShowLoader? <==> v.isLoading
    ensures s.ShowError? <==> !v.isLoading && v.error
    ensures s.ShowDetails? <==> !v.isLoading && !v.error && v.order.Some?
    ensures s.RenderThrows? <==> !v.isLoading && !v.error && v.order.None?
    ensures s.ShowDetails? ==> s.detail.payment == PaymentSectionOf(v.order.value, v.loadingPay, v.isPending)
    ensures s.ShowDetails? ==> (s.detail.payment.Some? <==> !v.order.value.isPaid)
    ensures s.ShowDetails? && s.detail.payment.Some? ==> (s.detail.payment.value.body.PayPalButtons? <==> !v.isPending)
    ensures s.ShowDetails? ==> s.detail.deliverLoader == v.loadingDeliver
    ensures s.ShowDetails? ==> (s.detail.markDelivered <==> MarkDeliveredOffered(v.userInfo, v.order.value))
  {
    if v.isLoading then ShowLoader
    else if v.error then ShowError
    else if v.order.None? then RenderThrows
    else
      var order := v.order.value;
      ShowDetails(DetailView(
        PaymentSectionOf(order, v.loadingPay, v.isPending),
        v.loadingDeliver,
        MarkDeliveredOffered(v.userInfo, order)))
  }

  /** The PayPal buttons are offered only for an unpaid order whose script is not pending. */
  predicate PaymentOffered(s: Screen) {
    s.ShowDetails? && s.detail.payment.Some? && s.detail.payment.value.body.PayPalButtons?
  }

  /** A pay action and the deliver action are never offered on the same screen. */
  lemma PayAndDeliverExclusive(v: ViewInputs)
    ensures var s := Render(v); !(PaymentOffered(s) && s.detail.markDelivered)
  {
  }

  /** Each of the four conditions alone withholds "Mark As Delivered". */
  lemma MarkDeliveredWithheld(v: ViewInputs)
    requires v.userInfo.None? || !v.userInfo.value.isAdmin
      || (v.order.Some? && (!v.order.value.isPaid || v.order.value.isDelivered))
    ensures var s := Render(v); s.ShowDetails? ==> !s.detail.markDelivered
  {
  }

  /** The screen offers the PayPal buttons only for orders on which the load effect may fire:
      with a ready client id and no SDK present, the effect loads the script for that order. */
  lemma PaymentOfferedOnlyWhenLoadable(v: ViewInputs, config: LoadGate.ConfigQuery)
    requires PaymentOffered(Render(v))
    requires LoadGate.ConfigReady(config)
    ensures LoadGate.Gate(LoadGate.EffectInputs(config, v.order, false)).Load?
  {
  }

  /** After a successful payment the refetched order is paid: the payment section is gone, and
      an administrator is then offered "Mark As Delivered" while it is undelivered. */
  lemma PaidRefetchHidesPayment(v: ViewInputs, refetched: Order)
    requires !v.isLoading && !v.error && refetched.isPaid && !refetched.isDelivered
    requires v.userInfo.Some? && v.userInfo.value.isAdmin
    ensures var s := Render(v.(order := Some(refetched)));
      s.ShowDetails? && s.detail.payment.None? && s.detail.markDelivered
  {
  }
}
