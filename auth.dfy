/** The API-key gate that wraps both API routes (middleware/auth.ts). The
    secret is the process-wide `API_KEY`, read once; `None` stands for an
    unset environment variable and an absent `x-api-key` header alike, both
    being `undefined` in JavaScript. */
module Auth {
  import opened Wrappers

  const UnauthorizedMessage := "HTTP ERROR 401: Unauthorized"

  /** What a wrapped handler produces: the 401 short-circuit, or the
      wrapped handler's own result. */
  datatype Gated<R> = Unauthorized(message: string) | Handled(result: R)

  /** The gate lets a request through exactly when the header equals the
      secret (strict equality, so `undefined === undefined` passes). */
  predicate Authorized(secret: Option<string>, apiKey: Option<string>)
  {
    apiKey == secret
  }

  /** `withAuth(handler)` applied to one request. */
  function WithAuth<Req, R>(secret: Option<string>, handler: Req -> R, apiKey: Option<string>, req: Req): (g: Gated<R>)
    ensures g.Handled? <==> Authorized(secret, apiKey)
    ensures g.Handled? ==> g.result == handler(req)
    ensures g.Unauthorized? ==> g.message == UnauthorizedMessage
  {
    if apiKey != secret then Unauthorized(UnauthorizedMessage) else Handled(handler(req))
  }

  /** With a secret configured, a request without the header is rejected. */
  lemma MissingHeaderRejected(secret: Option<string>)
    requires secret.Some?
    ensures !Authorized(secret, None)
  {
  }

  /** With no secret configured, a request without the header is accepted,
      and one that does carry a header is rejected. */
  lemma UnsetSecretAcceptsOnlyMissingHeader(apiKey: Option<string>)
    ensures Authorized(None, apiKey) <==> apiKey == None
  {
  }
}
