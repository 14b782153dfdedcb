/** The order record, the signed-in user and the errors the handlers catch. */
module Orders {
  import opened Values

  type OrderId = string

  /** The fields of a fetched order that the controller and the gating read.
      `totalPrice` is only passed on to the payment provider, never computed with.
      The screen takes the order id from its route, not from the fetched record. */
  datatype Order = Order(totalPrice: real, isPaid: bool, isDelivered: bool)

  /** The signed-in user held by the auth store. */
  datatype UserInfo = UserInfo(isAdmin: bool)

  /** The `data` payload a failed request carries (the server's JSON body). */
  datatype ServerBody = ServerBody(message: JsString)

  /** A value thrown by an awaited mutation or reported by the payment provider. */
  datatype ErrorValue = ErrorValue(data: Option<ServerBody>, message: JsString)

  /** The server's message, when the error carries a truthy one. */
  predicate HasServerMessage(e: ErrorValue) {
    e.data.Some? && Truthy(e.data.value.message)
  }

  /** `error?.data?.message || error.message`: the text of the error notification
      after a failed pay or deliver mutation. */
  function ErrorText(e: ErrorValue): (t: JsString)
    ensures HasServerMessage(e) ==> t == e.data.value.message
    ensures !HasServerMessage(e) ==> t == e.message
    ensures Truthy(t) <==> HasServerMessage(e) || Truthy(e.message)
  {
    var server := if e.data.Some? then e.data.value.message else None;
    Or(server, e.message)
  }
}
