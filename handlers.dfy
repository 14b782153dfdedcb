/** The effects of the payment and delivery handlers (OrderScreen.jsx, `createOrder`,
    `onApprove`, `onError`, `deliverOrderHandler`), as pure functions of their outcomes. */
module Handlers {
  import opened Orders
  import opened Effects

  /** How an awaited mutation settles: the promise resolves, or it rejects with a thrown value. */
  datatype Settlement = Resolved | Rejected(error: ErrorValue)

  /** How the provider's capture settles. */
  datatype CaptureOutcome = Captured(details: CaptureDetails) | CaptureRejected

  /** `createOrder`'s request: a single purchase unit for the order's total. */
  function AuthorisationRequest(order: Order): (r: ProviderOrderRequest)
    ensures |r.purchaseUnits| == 1
    ensures r.purchaseUnits[0].amountValue == order.totalPrice
  {
    ProviderOrderRequest([PurchaseUnit(order.totalPrice)])
  }

  /** `createOrder`: one call to the provider with the request above. */
  function CreateOrderEffects(order: Order): (r: seq<Effect>)
    ensures |r| == 1 && Count(r, CreateKind) == 1
    ensures r[0].CreateProviderOrder? && r[0].request.purchaseUnits == [PurchaseUnit(order.totalPrice)]
  {
    [CreateProviderOrder(AuthorisationRequest(order))]
  }

  /** What follows a mutation: on success a refetch, then the success notification;
      on failure the error notification alone. */
  function Aftermath(s: Settlement, successText: string): (r: seq<Effect>)
    ensures Count(r, RefetchKind) == (if s.Resolved? then 1 else 0)
    ensures Count(r, SuccessToastKind) == (if s.Resolved? then 1 else 0)
    ensures Count(r, ErrorToastKind) == (if s.Rejected? then 1 else 0)
    ensures Count(r, PayKind) == 0 && Count(r, DeliverKind) == 0 && Count(r, DispatchKind) == 0
    ensures Count(r, CaptureKind) == 0 && Count(r, CreateKind) == 0
    ensures s.Resolved? ==> r == [Refetch, ToastSuccess(successText)]
    ensures s.Rejected? ==> r == [ToastError(ErrorText(s.error))]
  {
    match s
    case Resolved => [Refetch, ToastSuccess(successText)]
    case Rejected(e) => [ToastError(ErrorText(e))]
  }

  /** `onApprove`: capture; when the capture yields details, `payOrder` with this
      screen's order id and those details, then the aftermath of the mutation. */
  function ApproveEffects(orderId: OrderId, capture: CaptureOutcome, pay: Settlement): (r: seq<Effect>)
    ensures |r| == (if capture.Captured? then (if pay.Resolved? then 4 else 3) else 1)
    ensures capture.CaptureRejected? ==> r == [CaptureProviderOrder]
    ensures |r| > 0 && r[0] == CaptureProviderOrder && Count(r, CaptureKind) == 1
    ensures Count(r, CreateKind) == 0
    ensures Count(r, PayKind) == (if capture.Captured? then 1 else 0)
    ensures capture.Captured? ==> r[1] == PayOrder(orderId, capture.details)
    ensures Count(r, RefetchKind) == (if capture.Captured? && pay.Resolved? then 1 else 0)
    ensures Count(r, SuccessToastKind) == Count(r, RefetchKind)
    ensures Count(r, ErrorToastKind) == (if capture.Captured? && pay.Rejected? then 1 else 0)
    ensures capture.Captured? && pay.Resolved? ==>
      r[|r| - 2] == Refetch && r[|r| - 1] == ToastSuccess("Payment successful")
    ensures capture.Captured? && pay.Rejected? ==> r[|r| - 1] == ToastError(ErrorText(pay.error))
    ensures Count(r, DeliverKind) == 0 && Count(r, DispatchKind) == 0
  {
    match capture
    case CaptureRejected => [CaptureProviderOrder]
    case Captured(details) =>
      var tail := Aftermath(pay, PaymentSuccessful);
      var r := [CaptureProviderOrder, PayOrder(orderId, details)] + tail;
      CountConcat([CaptureProviderOrder, PayOrder(orderId, details)], tail, CaptureKind);
      CountConcat([CaptureProviderOrder, PayOrder(orderId, details)], tail, PayKind);
      CountConcat([CaptureProviderOrder, PayOrder(orderId, details)], tail, RefetchKind);
      CountConcat([CaptureProviderOrder, PayOrder(orderId, details)], tail, SuccessToastKind);
      CountConcat([CaptureProviderOrder, PayOrder(orderId, details)], tail, ErrorToastKind);
      CountConcat([CaptureProviderOrder, PayOrder(orderId, details)], tail, DeliverKind);
      CountConcat([CaptureProviderOrder, PayOrder(orderId, details)], tail, DispatchKind);
      CountConcat([CaptureProviderOrder, PayOrder(orderId, details)], tail, CreateKind);
      r
  }

  /** `onError`: one error notification with the provider's message, nothing else. */
  function ProviderErrorEffects(err: ErrorValue): (r: seq<Effect>)
    ensures |r| == 1 && Count(r, ErrorToastKind) == 1
    ensures r[0] == ToastError(err.message)
    ensures Count(r, PayKind) == 0 && Count(r, DeliverKind) == 0 && Count(r, RefetchKind) == 0
  {
    [ToastError(err.message)]
  }

  /** `deliverOrderHandler`: `deliverOrder` with this screen's order id, then the aftermath. */
  function DeliverEffects(orderId: OrderId, deliver: Settlement): (r: seq<Effect>)
    ensures |r| == (if deliver.Resolved? then 3 else 2)
    ensures r[0] == DeliverOrder(orderId) && Count(r, DeliverKind) == 1
    ensures Count(r, CaptureKind) == 0 && Count(r, CreateKind) == 0
    ensures Count(r, RefetchKind) == (if deliver.Resolved? then 1 else 0)
    ensures Count(r, SuccessToastKind) == Count(r, RefetchKind)
    ensures Count(r, ErrorToastKind) == (if deliver.Rejected? then 1 else 0)
    ensures deliver.Resolved? ==> r[|r| - 2] == Refetch && r[|r| - 1] == ToastSuccess("Order delivered")
    ensures deliver.Rejected? ==> r[|r| - 1] == ToastError(ErrorText(deliver.error))
    ensures Count(r, PayKind) == 0 && Count(r, DispatchKind) == 0
  {
    var tail := Aftermath(deliver, OrderDelivered);
    CountConcat([DeliverOrder(orderId)], tail, DeliverKind);
    CountConcat([DeliverOrder(orderId)], tail, RefetchKind);
    CountConcat([DeliverOrder(orderId)], tail, SuccessToastKind);
    CountConcat([DeliverOrder(orderId)], tail, ErrorToastKind);
    CountConcat([DeliverOrder(orderId)], tail, PayKind);
    CountConcat([DeliverOrder(orderId)], tail, DispatchKind);
    CountConcat([DeliverOrder(orderId)], tail, CaptureKind);
    CountConcat([DeliverOrder(orderId)], tail, CreateKind);
    [DeliverOrder(orderId)] + tail
  }
}
