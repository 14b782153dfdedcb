/** JavaScript values that the order screen branches on. */
module Values {

  /** A value that may be `undefined`. */
  datatype Option<+T> = None | Some(value: T)

  /** A JavaScript string that may be `undefined`. */
  type JsString = Option<string>

  /** JavaScript truthiness of a possibly-undefined string: only a present,
      non-empty string is truthy. */
  predicate Truthy(s: JsString) {
    s.Some? && s.value != ""
  }

  /** JavaScript `a || b`: the left operand when it is truthy, else the right one. */
  function Or(a: JsString, b: JsString): (r: JsString)
    ensures Truthy(r) <==> Truthy(a) || Truthy(b)
    ensures r == a || r == b
    ensures Truthy(a) ==> r == a
  {
    if Truthy(a) then a else b
  }
}
