# Order screen payment and fulfilment controller

This project models the decision logic inside the order detail screen
(`frontend/src/screens/OrderScreen.jsx`) of a small shop front end, and proves
properties of that model. The JSX layout is not modelled. What is modelled:

- the effect that (re)initialises the PayPal script, and its guards;
- the `createOrder`, `onApprove` and `onError` callbacks given to the PayPal buttons;
- the administrator's "Mark As Delivered" handler;
- the conditions that decide what the screen renders: loader, error, details,
  the payment section and the delivery button.

Every external call is an entry in an ordered **effect trace**. These calls are
`paypalDispatch`, `actions.order.create`, `actions.order.capture`, `payOrder`,
`deliverOrder`, `refetch`, `toast.success` and `toast.error`. The outcome of each
call is an input to the model: a promise resolves or rejects, and the provider
assigns an order id.

Modules, leaf first:

- `Values` (values.dfy): `Option` for values that may be `undefined`, JavaScript
  string truthiness, and `||`.
- `Orders` (orders.dfy): the order fields the logic reads, the signed-in user, the
  thrown error value, and the error-notification text.
- `Effects` (effects.dfy): the effect trace entries, the constants `'MYR'`,
  `'pending'`, `'Payment successful'` and `'Order delivered'`, and counting by kind.
- `LoadGate` (load_gate.dfy): the `useEffect` guards and `loadPayPalScript`.
- `Handlers` (handlers.dfy): the effects of each handler, as pure functions of the
  outcomes.
- `Session` (session.dfy): a session is a sequence of entry-point invocations, and
  `Replay` gives its whole trace. Lemmas proved by induction:
  - every trace keeps the ordering rules;
  - there is one refetch per succeeded mutation;
  - the script is dispatched twice per firing run of the effect;
  - nothing is dispatched once the order is paid or the SDK is present.
- `Controller` (controller.dfy): the class `OrderScreenController`.
  - Its fields are a trace, a refetch counter and a ghost history of invocations.
  - Its entry points are `RunLoadEffect`, `CreateOrder`, `OnApprove`, `OnError` and
    `DeliverOrderHandler`. Each issues its calls one by one, as the handlers do, and is
    proved to append exactly its handler's block of effects.
  - Each entry point keeps the invariant `trace == Replay(orderId, history)`, plus the
    ordering rules and the refetch count.
  - `Emit`, `RefetchOrder`, `LoadPayPalScript` and `Settle` are steps of those entry
    points. They restore no invariant on their own.
  - `RefetchCount` only reads the counter.
- `View` (view.dfy): render gating as a function of the queries and flags.

Things the code does not do, and the model therefore does not do either:

- `createOrder` does not check that `totalPrice` is positive.
- There is no "pending" guard against a second script load: the only guard is the
  presence of `window.paypal`. `LoadGate.RerunBeforeScriptPresentReloads` states
  the consequence.
- Fetch results are never discarded as stale.

## Model

| member | source | states |
|---|---|---|
| `Orders.ErrorText` | frontend/src/screens/OrderScreen.jsx:59 | The error text is the server's `data.message` when that is present and truthy, otherwise the error's own `message`. It is truthy iff one of the two is. |
| `LoadGate.Gate` | frontend/src/screens/OrderScreen.jsx:28-48 | The effect loads the script iff all of these hold: the client-id query has no error, is not loading and has a truthy id; the order is present and unpaid; the SDK is absent. When it loads, it uses the fetched id unchanged. Reading the id throws exactly when the query is neither loading nor failed but has no payload. A paid order or a present SDK never loads. |
| `LoadGate.LoadDispatches` | frontend/src/screens/OrderScreen.jsx:30-39 | Loading makes exactly two dispatches. The first resets the options to the client id with currency `MYR`. The second sets the loading status to `pending`. |
| `LoadGate.EffectRunEffects` | frontend/src/screens/OrderScreen.jsx:28-48 | One run of the effect issues either exactly those two dispatches, when every guard holds, or nothing. |
| `LoadGate.RerunBeforeScriptPresentReloads` | frontend/src/screens/OrderScreen.jsx:41-46 | Two runs while the SDK is still absent issue the load sequence twice. Nothing else guards against a repeated load. |
| `Handlers.AuthorisationRequest` | frontend/src/screens/OrderScreen.jsx:74-83 | The provider request has exactly one purchase unit, and its amount is the order's `totalPrice`. |
| `Handlers.CreateOrderEffects` | frontend/src/screens/OrderScreen.jsx:74-87 | `createOrder` makes one provider create call, whose only purchase unit carries the order total. |
| `Handlers.Aftermath` | frontend/src/screens/OrderScreen.jsx:53-60 | After a mutation resolves: one refetch, then the success notification. After it rejects: one error notification with the error text, and no refetch. |
| `Handlers.ApproveEffects` | frontend/src/screens/OrderScreen.jsx:50-62 | `onApprove` first captures, and makes no create call. The trace block has length 4 after a resolved payment, 3 after a rejected one, and 1 when the capture rejects. If the capture yields details, it calls `payOrder` once, with this screen's order id and those details unchanged. On resolution: one refetch, then "Payment successful". On rejection: no refetch, no success notification, one error notification. If the capture rejects, nothing else follows. |
| `Handlers.ProviderErrorEffects` | frontend/src/screens/OrderScreen.jsx:70-72 | `onError` emits exactly one error notification, carrying the provider error's `message`. It makes no mutation and no refetch. |
| `Handlers.DeliverEffects` | frontend/src/screens/OrderScreen.jsx:89-97 | `deliverOrder(orderId)` is called once, first, with no provider call. The block has length 3 on resolution and 2 on rejection. On resolution: one refetch, then "Order delivered". On rejection: no refetch, one error notification with the error text. |
| `Session.ReplayWellOrdered` | frontend/src/screens/OrderScreen.jsx:28-97 | In every session's trace: each options reset uses `MYR` and is immediately followed by the pending status. A payment directly follows a capture. Each refetch directly follows a pay or deliver call and directly precedes a success notification. Each success notification directly follows a refetch. |
| `Session.EventRefetches` | frontend/src/screens/OrderScreen.jsx:54-57 | A single entry point refetches and notifies success exactly when it is a pay or deliver mutation that resolved. |
| `Session.RefetchPerSucceededMutation` | frontend/src/screens/OrderScreen.jsx:50-97 | Over a whole session, the refetches and the success notifications each equal the number of mutations that resolved. |
| `Session.TwoDispatchesPerFiringRun` | frontend/src/screens/OrderScreen.jsx:28-48 | Over a whole session, the script dispatches are exactly twice the number of effect runs whose guards all held. |
| `Session.NoDispatchOncePaidOrLoaded` | frontend/src/screens/OrderScreen.jsx:41-46 | If every effect run sees a paid order or a present SDK, the session dispatches nothing, however often the effect re-runs. |
| `Session.ProviderErrorsOnlyNotify` | frontend/src/screens/OrderScreen.jsx:70-72 | A session made only of provider errors has one error notification per error, no payment and no refetch. |
| `Controller.OrderScreenController.constructor` | frontend/src/screens/OrderScreen.jsx:12-26 | A new screen has an empty trace, no refetches and an empty history. |
| `Controller.OrderScreenController.RunLoadEffect` | frontend/src/screens/OrderScreen.jsx:28-48 | It checks the effect's guards in order and appends exactly that run's effects. It reports the type error when the query payload is absent, and keeps the session invariant. |
| `Controller.OrderScreenController.LoadPayPalScript` | frontend/src/screens/OrderScreen.jsx:30-39 | It appends the two load dispatches, in order. |
| `Controller.OrderScreenController.CreateOrder` | frontend/src/screens/OrderScreen.jsx:74-87 | It appends the provider create call for the order total, and returns the provider-assigned id unchanged. |
| `Controller.OrderScreenController.Settle` | frontend/src/screens/OrderScreen.jsx:53-60 | It appends the effects that follow a settled mutation, and bumps the refetch counter only on resolution. |
| `Controller.OrderScreenController.OnApprove` | frontend/src/screens/OrderScreen.jsx:50-62 | It appends exactly the approval effects. The refetch counter goes up by one iff the capture yielded details and the payment resolved. The session invariant is kept. |
| `Controller.OrderScreenController.OnError` | frontend/src/screens/OrderScreen.jsx:70-72 | It appends only the one error notification. The counter is unchanged. |
| `Controller.OrderScreenController.DeliverOrderHandler` | frontend/src/screens/OrderScreen.jsx:89-97 | It appends exactly the delivery effects. The refetch counter goes up by one iff delivery resolved. |
| `Controller.OrderScreenController.RefetchCount` | frontend/src/screens/OrderScreen.jsx:56 | It returns the refetch counter. That counter equals the number of succeeded mutations in the history, and the number of success notifications in the trace. |
| `View.PaymentSectionOf` | frontend/src/screens/OrderScreen.jsx:193-211 | The payment section exists iff the order is unpaid. It carries the pay-mutation spinner flag. It shows the PayPal buttons iff the script is not pending, and a loader otherwise. |
| `View.Render` | frontend/src/screens/OrderScreen.jsx:99-222 | The screen shows three tiers, in this precedence: the loader iff loading; else the error message iff an error; else the details iff the order is present. Reading an absent order throws otherwise. In the details: the payment section is exactly `PaymentSectionOf` of the order, the pay-mutation flag and the pending flag; it exists iff unpaid; buttons iff not pending; the deliver spinner iff a deliver mutation is in flight; "Mark As Delivered" iff the user is present, is an administrator, and the order is paid and not delivered. |
| `View.PayAndDeliverExclusive` | frontend/src/screens/OrderScreen.jsx:193-222 | The PayPal buttons and "Mark As Delivered" are never offered together. |
| `View.MarkDeliveredWithheld` | frontend/src/screens/OrderScreen.jsx:216 | Any one failed condition withholds "Mark As Delivered": no user, a non-administrator, an unpaid order, or a delivered order. |
| `View.PaymentOfferedOnlyWhenLoadable` | frontend/src/screens/OrderScreen.jsx:193-211 | Whenever the buttons are offered, the load effect, given a ready client id and no SDK, would load the script for that same order. |
| `View.PaidRefetchHidesPayment` | frontend/src/screens/OrderScreen.jsx:193-216 | Once a refetch returns the order as paid and undelivered, the payment section is gone and an administrator is offered "Mark As Delivered". |

## Left out

- JSX layout: the shipping, payment-method, item and price display, the
  delivered/paid status messages, and links and images. This is presentation only.
- The line subtotal `item.qty * item.price`. It is floating-point arithmetic used
  only for display. `totalPrice` is a `real` here and is only passed through.
- The order and client-id queries and the two mutations: caching, refetch
  scheduling, and how `isLoading`, `error` and `data` arise. These are inputs.
  Whether a server-side failure makes `await payOrder(...)` or
  `await deliverOrder(...)` reject is decided by the mutation hook, which is not
  part of this model. The model takes the settlement of the awaited promise as
  input and follows the `try`/`catch` on it.
- The PayPal SDK: how `actions.order.create` and `actions.order.capture` work, the
  script reducer's state transitions behind `isPending`, and what the provider does
  when `onApprove`'s promise rejects. The create and capture calls are trace
  entries, and their results are inputs.
- `toast`: a notification is a trace entry carrying its text.
- Asynchronous timing and re-render scheduling: which dependency change re-runs
  the effect. A session is a sequence of entry-point invocations.
  `window.paypal` is the boolean input `sdkPresent`.
- Session.ReplayWellOrdered: entry points are assumed never to overlap at their
  awaits (`await payOrder(...)`, `await deliverOrder(...)`). Each handler runs to
  completion before the next starts. The source does not disable "Mark As
  Delivered" while a delivery is in flight, so a double click interleaves two
  handlers, e.g. `[DeliverOrder, DeliverOrder, Refetch, ToastSuccess, Refetch,
  ToastSuccess]`. The adjacency rules of this lemma do not hold for such a trace.
  The counting lemmas (`Session.RefetchPerSucceededMutation`,
  `Session.TwoDispatchesPerFiringRun`) count per entry point and do not depend on
  the order.
- Controller.OrderScreenController.CreateOrder: a rejection of
  `actions.order.create` is not modelled. In the source, the promise that
  `createOrder` returns then rejects too. The model always returns the
  provider-assigned id. The trace is the same either way: one create call.
- Thrown values that are `null` or `undefined` in the `catch` blocks. The model's
  error values are always objects.
- The commented-out `onApproveTest` path. It is dead code.
