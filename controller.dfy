/** The order screen's payment and fulfilment controller: its entry points issue their
    external calls one by one into an effect trace. */
module Controller {
  import opened Values
  import opened Orders
  import opened Effects
  import LoadGate
  import opened Handlers
  import opened Session

  class OrderScreenController {
    /** The order id taken from the route. */
    const orderId: OrderId
    /** Every external call issued so far, in order. */
    var trace: seq<Effect>
    /** How many times the order query has been refetched. */
    var refetches: nat
    /** The entry points invoked so far, with their outcomes. */
    ghost var history: seq<Event>

    ghost predicate Valid()
      reads this
    {
      && trace == Replay(orderId, history)
      && refetches == Count(trace, RefetchKind)
      && WellOrdered(trace)
    }

    constructor (orderId: OrderId)
      ensures Valid()
      ensures this.orderId == orderId && trace == [] && refetches == 0 && history == []
    {
      this.orderId := orderId;
      trace := [];
      refetches := 0;
      history := [];
    }

    /** Issue one external call other than a refetch. A step of the entry points below,
        not an entry point itself: on its own it leaves `Valid()` to the caller. */
    method Emit(e: Effect)
      requires !e.Refetch?
      modifies this`trace
      ensures trace == old(trace) + [e]
    {
      trace := trace + [e];
    }

    /** `refetch()` on the order query. A step of the entry points below, not an entry
        point itself: on its own it leaves `Valid()` to the caller. */
    method RefetchOrder()
      modifies this`trace, this`refetches
      ensures trace == old(trace) + [Refetch] && refetches == old(refetches) + 1
    {
      trace := trace + [Refetch];
      refetches := refetches + 1;
    }

    /** Record the entry point and re-establish the invariant after its effects. */
    ghost method Record(ev: Event, before: seq<Effect>, refetchesBefore: nat)
      requires before == Replay(orderId, history) && refetchesBefore == Count(before, RefetchKind)
      requires trace == before + EventEffects(orderId, ev)
      requires refetches == refetchesBefore + Count(EventEffects(orderId, ev), RefetchKind)
      modifies this`history
      ensures history == old(history) + [ev]
      ensures Valid()
    {
      ReplayAppend(orderId, history, ev);
      history := history + [ev];
      CountConcat(before, EventEffects(orderId, ev), RefetchKind);
      ReplayWellOrdered(orderId, history);
    }

    /** The `useEffect` body: load the PayPal script when every guard holds.
        `threw` is set when reading the client id of an absent payload throws. */
    method RunLoadEffect(inputs: LoadGate.EffectInputs) returns (threw: bool)
      requires Valid()
      modifies this`trace, this`history
      ensures Valid()
      ensures history == old(history) + [EffectRun(inputs)]
      ensures trace == old(trace) + LoadGate.EffectRunEffects(inputs)
      ensures threw <==> LoadGate.Gate(inputs).ThrowsTypeError?
      ensures refetches == old(refetches)
    {
      ghost var before := trace;
      threw := false;
      var c := inputs.config;
      if !c.error && !c.isLoading {
        if c.data.None? {
          threw := true;
        } else if Truthy(c.data.value.clientId) {
          if inputs.order.Some? && !inputs.order.value.isPaid {
            if !inputs.sdkPresent {
              LoadPayPalScript(c.data.value.clientId.value);
            }
          }
        }
      }
      Record(EffectRun(inputs), before, refetches);
    }

    /** `loadPayPalScript`: two dispatches to the script reducer. A step of `RunLoadEffect`,
        not an entry point itself: on its own it leaves `Valid()` to the caller. */
    method LoadPayPalScript(clientId: string)
      modifies this`trace
      ensures trace == old(trace) + LoadGate.LoadDispatches(clientId)
    {
      Emit(PayPalDispatch(ResetOptions(clientId, Currency)));
      Emit(PayPalDispatch(SetLoadingStatus(Pending)));
    }

    /** `createOrder`: ask the provider to create an order for the total and hand back
        the id it assigns. */
    method CreateOrder(order: Order, providerOrderId: string) returns (id: string)
      requires Valid()
      modifies this`trace, this`history
      ensures Valid()
      ensures history == old(history) + [CreateRequested(order, providerOrderId)]
      ensures trace == old(trace) + [CreateProviderOrder(AuthorisationRequest(order))]
      ensures id == providerOrderId
      ensures refetches == old(refetches)
    {
      ghost var before := trace;
      Emit(CreateProviderOrder(ProviderOrderRequest([PurchaseUnit(order.totalPrice)])));
      id := providerOrderId;
      Record(CreateRequested(order, providerOrderId), before, refetches);
    }

    /** After an awaited mutation: on resolution refetch, then notify `successText`;
        on rejection notify the error's text. A step of `OnApprove` and `DeliverOrderHandler`,
        not an entry point itself: on its own it leaves `Valid()` to the caller. */
    method Settle(s: Settlement, successText: string)
      modifies this`trace, this`refetches
      ensures trace == old(trace) + Aftermath(s, successText)
      ensures refetches == old(refetches) + Count(Aftermath(s, successText), RefetchKind)
    {
      match s
      case Resolved =>
        RefetchOrder();
        Emit(ToastSuccess(successText));
      case Rejected(error) =>
        Emit(ToastError(ErrorText(error)));
    }

    /** `onApprove`: capture, then pay with the capture details; refetch and notify
        success, or notify the error. */
    method OnApprove(capture: CaptureOutcome, pay: Settlement)
      requires Valid()
      modifies this`trace, this`refetches, this`history
      ensures Valid()
      ensures history == old(history) + [Approve(capture, pay)]
      ensures trace == old(trace) + ApproveEffects(orderId, capture, pay)
      ensures refetches == old(refetches) + (if capture.Captured? && pay.Resolved? then 1 else 0)
    {
      ghost var before, refetchesBefore := trace, refetches;
      ghost var block := ApproveEffects(orderId, capture, pay);
      Emit(CaptureProviderOrder);
      if capture.Captured? {
        Emit(PayOrder(orderId, capture.details));
        Settle(pay, PaymentSuccessful);
        assert block == [CaptureProviderOrder, PayOrder(orderId, capture.details)] + Aftermath(pay, PaymentSuccessful);
      }
      assert trace == before + block;
      assert EventEffects(orderId, Approve(capture, pay)) == block;
      assert refetches == refetchesBefore + Count(block, RefetchKind);
      Record(Approve(capture, pay), before, refetchesBefore);
    }

    /** `onError`: notify the provider's message. */
    method OnError(err: ErrorValue)
      requires Valid()
      modifies this`trace, this`history
      ensures Valid()
      ensures history == old(history) + [ProviderError(err)]
      ensures trace == old(trace) + [ToastError(err.message)]
      ensures refetches == old(refetches)
    {
      ghost var before := trace;
      Emit(ToastError(err.message));
      Record(ProviderError(err), before, refetches);
    }

    /** `deliverOrderHandler`: mark delivered; refetch and notify success, or notify the error. */
    method DeliverOrderHandler(deliver: Settlement)
      requires Valid()
      modifies this`trace, this`refetches, this`history
      ensures Valid()
      ensures history == old(history) + [MarkDelivered(deliver)]
      ensures trace == old(trace) + DeliverEffects(orderId, deliver)
      ensures refetches == old(refetches) + (if deliver.Resolved? then 1 else 0)
    {
      ghost var before, refetchesBefore := trace, refetches;
      ghost var block := DeliverEffects(orderId, deliver);
      Emit(DeliverOrder(orderId));
      Settle(deliver, OrderDelivered);
      assert trace == before + block;
      assert EventEffects(orderId, MarkDelivered(deliver)) == block;
      assert refetches == refetchesBefore + Count(block, RefetchKind);
      Record(MarkDelivered(deliver), before, refetchesBefore);
    }

    /** The refetch counter matches the succeeded mutations of the session. */
    method RefetchCount() returns (n: nat)
      requires Valid()
      ensures n == refetches
      ensures n == SucceededMutations(history)
      ensures n == Count(trace, SuccessToastKind)
    {
      RefetchPerSucceededMutation(orderId, history);
      n := refetches;
    }
  }
}
