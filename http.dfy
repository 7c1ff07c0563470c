/** The JSON responses the handlers and middlewares send, and JavaScript truthiness of body fields. */
module Http {
  import opened Wrappers
  import opened Schema

  /**
   * A response: HTTP status and the body's `ok`, `msg`, `user`, `token`, `rol` and `id`
   * members, each absent unless the handler sends it.
   */
  datatype Response = Response(status: nat, ok: bool, msg: Option<string>, user: Option<User>,
                               token: Option<string>, rol: Option<string>, id: Option<nat>)

  const ErrorInterno: string := "Error interno"
  const TokenInvalido: string := "Token inválido"

  /** `res.status(status).json({ ok: false, msg })`. */
  function Reply(status: nat, msg: string): Response {
    Response(status, false, Some(msg), None, None, None, None)
  }

  /** What a middleware does with a request: call `next()`, or answer and stop the chain. */
  datatype Outcome = Next | Halt(response: Response)

  /** A string body field is truthy when present and not the empty string. */
  predicate Truthy(v: Option<string>) {
    v.Some? && v.value != ""
  }

  /** A numeric body field is truthy when present and not zero. */
  predicate TruthyNumber(v: Option<int>) {
    v.Some? && v.value != 0
  }
}
