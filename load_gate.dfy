/** The effect that (re)initialises the PayPal script (OrderScreen.jsx, `useEffect`). */
module LoadGate {
  import opened Values
  import opened Orders
  import opened Effects

  /** The PayPal client-id query's payload. */
  datatype PayPalConfig = PayPalConfig(clientId: JsString)

  /** The client-id query as the screen sees it. */
  datatype ConfigQuery = ConfigQuery(isLoading: bool, error: bool, data: Option<PayPalConfig>)

  /** What one run of the effect reads: the client-id query, the order query's data and
      whether the PayPal SDK is already present in the page (`window.paypal`). */
  datatype EffectInputs = EffectInputs(config: ConfigQuery, order: Option<Order>, sdkPresent: bool)

  /** What one run of the effect does. `ThrowsTypeError`: the query is neither loading nor
      failed but has no payload, so reading `paypal.clientId` throws. */
  datatype GateOutcome = Skip | Load(clientId: string) | ThrowsTypeError

  /** The query has produced a truthy client id. */
  predicate ConfigReady(c: ConfigQuery) {
    !c.error && !c.isLoading && c.data.Some? && Truthy(c.data.value.clientId)
  }

  /** The order is known and not yet paid. */
  predicate AwaitingPayment(order: Option<Order>) {
    order.Some? && !order.value.isPaid
  }

  /** Reference condition for loading the script: every guard of the effect holds. */
  predicate NeedsScript(inputs: EffectInputs) {
    ConfigReady(inputs.config) && AwaitingPayment(inputs.order) && !inputs.sdkPresent
  }

  /** The effect's decision, guard by guard in the order the effect evaluates them. */
  function Gate(inputs: EffectInputs): (g: GateOutcome)
    ensures g.Load? <==> NeedsScript(inputs)
    ensures g.Load? ==> inputs.config.data.value.clientId == Some(g.clientId) && g.clientId != ""
    ensures g.ThrowsTypeError? <==> !inputs.config.error && !inputs.config.isLoading && inputs.config.data.None?
    ensures inputs.sdkPresent || !AwaitingPayment(inputs.order) ==> !g.Load?
  {
    var c := inputs.config;
    if c.error || c.isLoading then Skip
    else if c.data.None? then ThrowsTypeError
    else if !Truthy(c.data.value.clientId) then Skip
    else if inputs.order.Some? && !inputs.order.value.isPaid then
      if !inputs.sdkPresent then Load(c.data.value.clientId.value) else Skip
    else Skip
  }

  /** `loadPayPalScript`: reset the script options to the fetched client id, then mark loading pending. */
  function LoadDispatches(clientId: string): (r: seq<Effect>)
    ensures |r| == 2 && Count(r, DispatchKind) == 2
    ensures r[0] == PayPalDispatch(ResetOptions(clientId, "MYR"))
    ensures r[1] == PayPalDispatch(SetLoadingStatus("pending"))
  {
    [PayPalDispatch(ResetOptions(clientId, Currency)), PayPalDispatch(SetLoadingStatus(Pending))]
  }

  /** The effects of one run of the effect. */
  function EffectRunEffects(inputs: EffectInputs): (r: seq<Effect>)
    ensures |r| == (if NeedsScript(inputs) then 2 else 0)
    ensures Count(r, DispatchKind) == |r|
    ensures NeedsScript(inputs) ==>
      && r[0] == PayPalDispatch(ResetOptions(inputs.config.data.value.clientId.value, "MYR"))
      && r[1] == PayPalDispatch(SetLoadingStatus("pending"))
  {
    match Gate(inputs)
    case Load(clientId) => LoadDispatches(clientId)
    case _ => []
  }

  /** Re-running the effect while the SDK is still absent dispatches the load sequence again:
      the only guard against a second load is the SDK's presence in the page. */
  lemma RerunBeforeScriptPresentReloads(inputs: EffectInputs)
    requires NeedsScript(inputs)
    ensures EffectRunEffects(inputs) + EffectRunEffects(inputs) ==
      LoadDispatches(inputs.config.data.value.clientId.value) + LoadDispatches(inputs.config.data.value.clientId.value)
  {
  }
}
