/** What a route handler answers when it does not succeed, and the caller's
    identity as the authentication middleware hands it to the handlers. */
module Http {

  /** A document `_id` as it appears in request paths and bodies. */
  type Id = string

  /** The error responses the handlers send: the HTTP status and the
      `error` message of the JSON body. */
  datatype Failure =
    | NotFound(message: string)
    | BadRequest(message: string)
    | Forbidden(message: string)
    | ServerError(message: string)
  {
    function Code(): (c: int)
      ensures c in {400, 403, 404, 500}
      ensures NotFound? <==> c == 404
      ensures BadRequest? <==> c == 400
      ensures Forbidden? <==> c == 403
    {
      match this
      case NotFound(_) => 404
      case BadRequest(_) => 400
      case Forbidden(_) => 403
      case ServerError(_) => 500
    }
  }

  /** Either the document a handler returns or the failure it reports. */
  datatype Response<T> = Ok(value: T) | Err(failure: Failure)

  /** The roles the back end recognises for an authenticated user. */
  datatype Role = Customer | Pharmacist | Admin | DeliveryAgent
}
