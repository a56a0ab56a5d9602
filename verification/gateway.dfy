/**
 * What every route of the token-exchange gateway shares: the environment,
 * the request headers it reads, the JSON responses it writes, the shared
 * secret check that runs before anything else, the Documenso API key lookup,
 * and the unauthenticated CORS preflight answer.
 *
 * A handler is a function returning a `Handled`: the response together with
 * the downstream calls it made, in order.
 */
module Gateway {
  import opened Wrappers
  import Strings
  import Json
  import DocumensoClient

  const NOT_CONFIGURED_MESSAGE := "Token exchange is not configured"
  const UNAUTHORIZED := "UNAUTHORIZED"
  const INVALID_JSON := "INVALID_JSON"
  const INVALID_REQUEST := "INVALID_REQUEST"
  const DOCUMENSO_API_ERROR := "DOCUMENSO_API_ERROR"
  const BEARER_PREFIX := "Bearer "

  /** `TOKEN_EXCHANGE_SECRET` and the platform address. */
  datatype Env = Env(tokenExchangeSecret: Option<string>, client: DocumensoClient.Env)

  /** The request headers the gateway reads; `None` when the header is absent. */
  datatype Headers = Headers(
    authorization: Option<string>,
    xApiKey: Option<string>,
    documensoApiKey: Option<string>)

  datatype Body =
    | NoContent
    | ErrorBody(error: string, code: Option<string>)
    | LinkBody(link: string, expiresAt: string, expiresIn: int, recipientEmail: Option<string>)
    | AuthoringBody(id: int, authoringLink: string, expiresAt: string, expiresIn: int)
    | TemplatesBody(page: Json.Value)

  datatype Response = Response(status: int, body: Body)

  /** What the document-request route hands to the credential exchanger. */
  datatype ExchangeRequest = ExchangeRequest(credentials: map<string, Json.Value>, slug: string, organisationId: string)

  /** A downstream call made while handling a request. */
  datatype Call = Fetch(request: DocumensoClient.HttpRequest) | Exchange(exchange: ExchangeRequest)

  datatype Handled = Handled(response: Response, calls: seq<Call>)

  function Error(status: int, message: string, code: string): Response {
    Response(status, ErrorBody(message, Some(code)))
  }

  /** Every upstream failure is reported as 502 with the thrown message. */
  function UpstreamError(message: string): Response {
    Error(502, message, DOCUMENSO_API_ERROR)
  }

  /** The request sent by a client operation, as a trace. */
  function Trace<T>(s: DocumensoClient.Sent<T>): seq<Call> {
    if s.request.Some? then [Fetch(s.request.value)] else []
  }

  predicate HasBearer(h: Headers) {
    h.authorization.Some? && Strings.StartsWith(h.authorization.value, BEARER_PREFIX)
  }

  /** `getAuthHeader`: the text after `Bearer ` in `Authorization`, else the `X-API-Key` header. */
  function GetAuthHeader(h: Headers): (r: Option<string>)
    ensures HasBearer(h) ==> r.Some? && BEARER_PREFIX + r.value == h.authorization.value
    ensures !HasBearer(h) ==> r == h.xApiKey
  {
    if HasBearer(h) then
      var auth := h.authorization.value;
      assert auth == auth[..|BEARER_PREFIX|] + auth[|BEARER_PREFIX|..];
      Some(auth[|BEARER_PREFIX|..])
    else h.xApiKey
  }

  /** The secret is configured: present and non-empty (`!secret` is false). */
  predicate Configured(env: Env) {
    env.tokenExchangeSecret.Some? && env.tokenExchangeSecret.value != ""
  }

  /**
   * The checks every route runs first: 500 when the secret is not configured,
   * then 401 unless the caller presented a non-empty value equal to it.
   * `None` means the request may proceed.
   */
  function Guard(env: Env, h: Headers): (r: Option<Response>)
    ensures !Configured(env) ==> r == Some(Response(500, ErrorBody(NOT_CONFIGURED_MESSAGE, None)))
    ensures Configured(env) && r.Some? ==> r.value == Error(401, "Unauthorized", UNAUTHORIZED)
  {
    if !Configured(env) then Some(Response(500, ErrorBody(NOT_CONFIGURED_MESSAGE, None)))
    else
      var provided := GetAuthHeader(h);
      if provided.None? || provided.value == "" || provided.value != env.tokenExchangeSecret.value then
        Some(Error(401, "Unauthorized", UNAUTHORIZED))
      else None
  }

  /**
   * A request passes the guard exactly when a secret is configured and the caller
   * sent `Authorization: Bearer <secret>`, or sent `X-API-Key: <secret>` without a
   * Bearer-form `Authorization` header (a Bearer header always wins, even when wrong).
   */
  lemma GuardAdmitsExactlyTheSecret(env: Env, h: Headers)
    ensures Guard(env, h).None? <==>
      Configured(env)
      && (h.authorization == Some(BEARER_PREFIX + env.tokenExchangeSecret.value)
          || (!HasBearer(h) && h.xApiKey == Some(env.tokenExchangeSecret.value)))
  {
    if Configured(env) {
      var secret := env.tokenExchangeSecret.value;
      if h.authorization == Some(BEARER_PREFIX + secret) {
        assert HasBearer(h);
        assert (BEARER_PREFIX + secret)[|BEARER_PREFIX|..] == secret;
      }
    }
  }

  /**
   * The Documenso API key: the `X-Documenso-API-Key` header, or when that header
   * is absent the `apiKey` query parameter; `None` when the chosen value is missing
   * or empty. A present but empty header does not fall back to the query.
   */
  function DocumensoApiKey(h: Headers, query: map<string, string>): (r: Option<string>)
    ensures h.documensoApiKey.Some? ==>
      r == (if h.documensoApiKey.value != "" then h.documensoApiKey else None)
    ensures h.documensoApiKey.None? ==>
      r == (if "apiKey" in query && query["apiKey"] != "" then Some(query["apiKey"]) else None)
    ensures r.Some? ==> r.value != ""
  {
    var key := if h.documensoApiKey.Some? then h.documensoApiKey
               else if "apiKey" in query then Some(query["apiKey"]) else None;
    if key.Some? && key.value != "" then key else None
  }

  /** `OPTIONS`: an empty 204, whatever the request and configuration. */
  function Preflight(): (r: Response)
    ensures r.status == 204 && r.body.NoContent?
  {
    Response(204, NoContent)
  }
}
