/** Responses as the handlers build them: a status and either a JSON object of strings or a data payload. */
module Http {

  datatype Payload<T> = Fields(fields: map<string, string>) | Data(value: T)

  datatype Response<T> = Response(status: int, body: Payload<T>)

  /** A response that only ever carries a message or an error object. */
  type Reply = Response<()>

  const OK := 200
  const BAD_REQUEST := 400
  const UNAUTHORIZED := 401
  const NOT_FOUND := 404
  const CONFLICT := 409
  const INTERNAL_SERVER_ERROR := 500
  const BAD_GATEWAY := 502

  /** `["error" => $message]` rendered with `$status`. */
  function Error<T>(status: int, message: string): Response<T>
  {
    Response(status, Fields(map["error" := message]))
  }

  /** `["message" => $message]` rendered with 200. */
  function Message<T>(message: string): Response<T>
  {
    Response(OK, Fields(map["message" := message]))
  }

  /** Request headers as PSR-7 keeps them: each name with the list of its values, in arrival order. */
  type Headers = map<string, seq<string>>

  /** Whether the request carries at least one value for the header. */
  predicate Sent(headers: Headers, name: string)
  {
    name in headers && headers[name] != []
  }

  /** `$request->getHeaders()[$name][0] ?? ''`: the FIRST value of the header. */
  function Header(headers: Headers, name: string): string
  {
    if Sent(headers, name) then headers[name][0] else ""
  }

  /**
   * `$request->withAddedHeader($name, $value)`: the value goes AFTER the values
   * already present, so a reader of the first value sees it only when the header
   * was not sent before.
   */
  function AddedHeader(headers: Headers, name: string, value: string): (h: Headers)
    ensures Sent(h, name) && h[name][|h[name]| - 1] == value
    ensures Header(h, name) == if Sent(headers, name) then Header(headers, name) else value
    ensures forall other :: other != name ==> Header(h, other) == Header(headers, other)
    ensures forall other :: other != name ==> (other in h <==> other in headers)
    ensures forall other :: other != name && other in headers ==> h[other] == headers[other]
  {
    headers[name := (if name in headers then headers[name] else []) + [value]]
  }

  /** The 401 of a guard on an account route: the message and both e-mails. */
  function AccountDenied<T>(message: string, headerEmail: string, routeEmail: string): Response<T>
  {
    Response(UNAUTHORIZED, Fields(map["error" := message, "your_email" := headerEmail, "user_email" := routeEmail]))
  }
}
