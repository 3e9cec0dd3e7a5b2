/**
 * The replies of the two remote calls, as the workflow sees them after
 * the HTTP client has resolved or rejected, and the `msg || fallback`
 * rule both workflows use to pick the message they show.
 */
module Replies {
  import opened Wrappers

  /** The body of a successful `GET /consultar/{id}`. */
  datatype Product = Product(idproducto: string, nombre: string)

  /** `GET /consultar/{id}`: resolved with its data, or rejected with the `msg` of the error body, if any. */
  datatype LookupReply = LookupOk(data: Product) | LookupErr(msg: Option<string>)

  /** `DELETE /eliminar/{id}`: resolved or rejected, each with the `msg` of its body, if any. */
  datatype DeleteReply = DeleteOk(msg: Option<string>) | DeleteErr(msg: Option<string>)

  /** The generic message shown when a failed request brings no message of its own. */
  const REQUEST_ERROR := "Error en la solicitud: contactar al administrador"

  /**
   * JavaScript `msg || fallback` on an optional string: an absent and an empty
   * `msg` are both falsy and give the fallback.
   */
  function MsgOr(msg: Option<string>, fallback: string): (r: string)
    ensures msg.Some? && msg.value != "" ==> r == msg.value
    ensures msg.None? || msg.value == "" ==> r == fallback
    ensures fallback != "" ==> r != ""
  {
    match msg
    case Some(m) => if m != "" then m else fallback
    case None => fallback
  }
}
