/** The observable side effects of the order screen, recorded in the order they are issued. */
module Effects {
  import opened Values
  import opened Orders

  /** The currency the script options are reset to. */
  const Currency: string := "MYR"
  /** The loading status dispatched right after the options are reset. */
  const Pending: string := "pending"
  const PaymentSuccessful: string := "Payment successful"
  const OrderDelivered: string := "Order delivered"

  /** An action sent to the PayPal script reducer. */
  datatype ScriptAction =
    | ResetOptions(clientId: string, currency: string)
    | SetLoadingStatus(status: string)

  /** The request `createOrder` hands to the provider. */
  datatype PurchaseUnit = PurchaseUnit(amountValue: real)
  datatype ProviderOrderRequest = ProviderOrderRequest(purchaseUnits: seq<PurchaseUnit>)

  /** The provider's capture result: opaque, passed on unchanged. */
  datatype CaptureDetails = CaptureDetails(payload: string)

  /** One external call made by the screen. */
  datatype Effect =
    | PayPalDispatch(action: ScriptAction)                 // paypalDispatch(...)
    | CreateProviderOrder(request: ProviderOrderRequest)   // actions.order.create(...)
    | CaptureProviderOrder                                 // actions.order.capture()
    | PayOrder(orderId: OrderId, details: CaptureDetails)  // payOrder({orderId, details})
    | DeliverOrder(orderId: OrderId)                       // deliverOrder(orderId)
    | Refetch                                              // refetch()
    | ToastSuccess(text: string)                           // toast.success(...)
    | ToastError(errorText: JsString)                      // toast.error(...)

  datatype EffectKind =
    DispatchKind | CreateKind | CaptureKind | PayKind | DeliverKind | RefetchKind | SuccessToastKind | ErrorToastKind

  function KindOf(e: Effect): EffectKind {
    match e
    case PayPalDispatch(_) => DispatchKind
    case CreateProviderOrder(_) => CreateKind
    case CaptureProviderOrder => CaptureKind
    case PayOrder(_, _) => PayKind
    case DeliverOrder(_) => DeliverKind
    case Refetch => RefetchKind
    case ToastSuccess(_) => SuccessToastKind
    case ToastError(_) => ErrorToastKind
  }

  /** The number of effects of kind `k` in trace `t`. */
  function Count(t: seq<Effect>, k: EffectKind): (n: nat)
    ensures n <= |t|
  {
    if t == [] then 0
    else (if KindOf(t[0]) == k then 1 else 0) + Count(t[1..], k)
  }

  lemma {:induction false} CountConcat(a: seq<Effect>, b: seq<Effect>, k: EffectKind)
    ensures Count(a + b, k) == Count(a, k) + Count(b, k)
  {
    if a == [] {
      assert a + b == b;
    } else {
      assert (a + b)[1..] == a[1..] + b;
      CountConcat(a[1..], b, k);
    }
  }
}
