/** A session of the order screen: the handler invocations in the order they happen,
    and the trace of effects they issue. */
module Session {
  import opened Orders
  import opened Effects
  import LoadGate
  import opened Handlers

  /** One invocation of an entry point of the screen, with the outcomes of the external calls it makes. */
  datatype Event =
    | EffectRun(inputs: LoadGate.EffectInputs)                     // the useEffect body runs
    | CreateRequested(order: Order, providerOrderId: string)       // provider calls createOrder
    | Approve(capture: CaptureOutcome, pay: Settlement)            // provider calls onApprove
    | ProviderError(err: ErrorValue)                               // provider calls onError
    | MarkDelivered(deliver: Settlement)                           // admin clicks "Mark As Delivered"

  function EventEffects(orderId: OrderId, ev: Event): seq<Effect> {
    match ev
    case EffectRun(inputs) => LoadGate.EffectRunEffects(inputs)
    case CreateRequested(order, _) => CreateOrderEffects(order)
    case Approve(capture, pay) => ApproveEffects(orderId, capture, pay)
    case ProviderError(err) => ProviderErrorEffects(err)
    case MarkDelivered(deliver) => DeliverEffects(orderId, deliver)
  }

  /** The trace of a whole session on the screen for `orderId`. */
  function Replay(orderId: OrderId, events: seq<Event>): seq<Effect>
    decreases |events|
  {
    if events == [] then []
    else Replay(orderId, events[..|events| - 1]) + EventEffects(orderId, events[|events| - 1])
  }

  lemma ReplayAppend(orderId: OrderId, events: seq<Event>, ev: Event)
    ensures Replay(orderId, events + [ev]) == Replay(orderId, events) + EventEffects(orderId, ev)
  {
    assert (events + [ev])[..|events|] == events;
  }

  /** The ordering rules a trace keeps at position `i`:
      the options reset names the fixed currency and is immediately followed by the pending status, and the pending
      status only follows a reset; a payment is sent only right after a capture; a refetch
      comes right after a pay or deliver mutation and right before a success notification,
      and a success notification only right after a refetch. */
  predicate OrderedAt(t: seq<Effect>, i: nat)
    requires i < |t|
  {
    && (t[i].PayPalDispatch? && t[i].action.ResetOptions? ==>
          t[i].action.currency == Currency && i + 1 < |t| && t[i + 1] == PayPalDispatch(SetLoadingStatus(Pending)))
    && (t[i].PayPalDispatch? && t[i].action.SetLoadingStatus? ==>
          0 < i && t[i - 1].PayPalDispatch? && t[i - 1].action.ResetOptions?)
    && (t[i].PayOrder? ==> 0 < i && t[i - 1] == CaptureProviderOrder)
    && (t[i].Refetch? ==>
          0 < i && (t[i - 1].PayOrder? || t[i - 1].DeliverOrder?) && i + 1 < |t| && t[i + 1].ToastSuccess?)
    && (t[i].ToastSuccess? ==> 0 < i && t[i - 1] == Refetch)
  }

  predicate WellOrdered(t: seq<Effect>) {
    forall i :: 0 <= i < |t| ==> OrderedAt(t, i)
  }

  /** An effect whose ordering rule looks at the effect before it. */
  predicate FollowsOther(e: Effect) {
    e.Refetch? || e.PayOrder? || e.ToastSuccess? || (e.PayPalDispatch? && e.action.SetLoadingStatus?)
  }

  lemma WellOrderedConcat(a: seq<Effect>, b: seq<Effect>)
    requires WellOrdered(a) && WellOrdered(b)
    requires |b| > 0 ==> !FollowsOther(b[0])
    ensures WellOrdered(a + b)
  {
    var t := a + b;
    forall i | 0 <= i < |t| ensures OrderedAt(t, i) {
      if i < |a| {
        assert OrderedAt(a, i);
      } else {
        assert OrderedAt(b, i - |a|);
      }
    }
  }

  lemma EventEffectsWellOrdered(orderId: OrderId, ev: Event)
    ensures WellOrdered(EventEffects(orderId, ev))
    ensures |EventEffects(orderId, ev)| > 0 ==> !FollowsOther(EventEffects(orderId, ev)[0])
  {
    var t := EventEffects(orderId, ev);
    forall i | 0 <= i < |t| ensures OrderedAt(t, i) {
      match ev
      case EffectRun(inputs) =>
      case CreateRequested(_, _) =>
      case Approve(capture, pay) =>
      case ProviderError(_) =>
      case MarkDelivered(_) =>
    }
  }

  /** Every trace a session produces keeps the ordering rules. */
  lemma {:induction false} ReplayWellOrdered(orderId: OrderId, events: seq<Event>)
    ensures WellOrdered(Replay(orderId, events))
    decreases |events|
  {
    if events != [] {
      var front := events[..|events| - 1];
      ReplayWellOrdered(orderId, front);
      EventEffectsWellOrdered(orderId, events[|events| - 1]);
      WellOrderedConcat(Replay(orderId, front), EventEffects(orderId, events[|events| - 1]));
    }
  }

  /** A pay or deliver mutation whose promise resolved. */
  predicate MutationSucceeded(ev: Event) {
    (ev.Approve? && ev.capture.Captured? && ev.pay.Resolved?) || (ev.MarkDelivered? && ev.deliver.Resolved?)
  }

  function SucceededMutations(events: seq<Event>): nat
    decreases |events|
  {
    if events == [] then 0
    else SucceededMutations(events[..|events| - 1]) + (if MutationSucceeded(events[|events| - 1]) then 1 else 0)
  }

  /** A run of the effect whose guards all hold. */
  predicate LoadFires(ev: Event) {
    ev.EffectRun? && LoadGate.NeedsScript(ev.inputs)
  }

  function FiringRuns(events: seq<Event>): nat
    decreases |events|
  {
    if events == [] then 0
    else FiringRuns(events[..|events| - 1]) + (if LoadFires(events[|events| - 1]) then 1 else 0)
  }

  /** One entry point refetches, and notifies success, exactly when it is a succeeded mutation. */
  lemma EventRefetches(orderId: OrderId, ev: Event)
    ensures Count(EventEffects(orderId, ev), RefetchKind) == (if MutationSucceeded(ev) then 1 else 0)
    ensures Count(EventEffects(orderId, ev), SuccessToastKind) == (if MutationSucceeded(ev) then 1 else 0)
  {
    match ev
    case EffectRun(_) =>
    case CreateRequested(_, _) =>
    case Approve(_, _) =>
    case ProviderError(_) =>
    case MarkDelivered(_) =>
  }

  /** Exactly one refetch per succeeded mutation, and none otherwise. */
  lemma {:induction false} RefetchPerSucceededMutation(orderId: OrderId, events: seq<Event>)
    ensures Count(Replay(orderId, events), RefetchKind) == SucceededMutations(events)
    ensures Count(Replay(orderId, events), SuccessToastKind) == SucceededMutations(events)
    decreases |events|
  {
    if events != [] {
      var front, last := events[..|events| - 1], events[|events| - 1];
      RefetchPerSucceededMutation(orderId, front);
      EventRefetches(orderId, last);
      CountConcat(Replay(orderId, front), EventEffects(orderId, last), RefetchKind);
      CountConcat(Replay(orderId, front), EventEffects(orderId, last), SuccessToastKind);
    }
  }

  /** Exactly two script dispatches per firing run of the effect, and none otherwise. */
  lemma {:induction false} TwoDispatchesPerFiringRun(orderId: OrderId, events: seq<Event>)
    ensures Count(Replay(orderId, events), DispatchKind) == 2 * FiringRuns(events)
    decreases |events|
  {
    if events != [] {
      var front, last := events[..|events| - 1], events[|events| - 1];
      TwoDispatchesPerFiringRun(orderId, front);
      CountConcat(Replay(orderId, front), EventEffects(orderId, last), DispatchKind);
    }
  }

  /** Re-running the effect is harmless once the order is paid or the SDK is present:
      if every run in a session sees one of the two, the session dispatches nothing. */
  lemma {:induction false} NoDispatchOncePaidOrLoaded(orderId: OrderId, events: seq<Event>)
    requires forall i :: 0 <= i < |events| && events[i].EffectRun? ==>
      events[i].inputs.sdkPresent || (events[i].inputs.order.Some? && events[i].inputs.order.value.isPaid)
    ensures Count(Replay(orderId, events), DispatchKind) == 0
    decreases |events|
  {
    if events != [] {
      var front, last := events[..|events| - 1], events[|events| - 1];
      NoDispatchOncePaidOrLoaded(orderId, front);
      CountConcat(Replay(orderId, front), EventEffects(orderId, last), DispatchKind);
    }
  }

  /** The provider's error callback never reaches a mutation or a refetch. */
  lemma {:induction false} ProviderErrorsOnlyNotify(orderId: OrderId, events: seq<Event>)
    requires forall i :: 0 <= i < |events| ==> events[i].ProviderError?
    ensures Count(Replay(orderId, events), ErrorToastKind) == |events|
    ensures Count(Replay(orderId, events), PayKind) == 0
    ensures Count(Replay(orderId, events), RefetchKind) == 0
    decreases |events|
  {
    if events != [] {
      var front, last := events[..|events| - 1], events[|events| - 1];
      ProviderErrorsOnlyNotify(orderId, front);
      CountConcat(Replay(orderId, front), EventEffects(orderId, last), ErrorToastKind);
      CountConcat(Replay(orderId, front), EventEffects(orderId, last), PayKind);
      CountConcat(Replay(orderId, front), EventEffects(orderId, last), RefetchKind);
    }
  }
}
