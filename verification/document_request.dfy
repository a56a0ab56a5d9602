/**
 * `POST /api/document-request`: after the shared-secret check, reads a JSON
 * body naming either a platform `apiKey` or third-party `credentials` with a
 * `slug` and `organisationId` (exchanged for an API key), mints a presign
 * token, and answers with a template-authoring link.
 */
module DocumentRequestRoute {
  import opened Wrappers
  import Strings
  import Json
  import Gateway
  import Client = DocumensoClient

  const MIN_EXPIRES_IN := 5
  const MAX_EXPIRES_IN := 10080
  const INVALID_REQUEST_MESSAGE := "Provide either apiKey or (credentials, slug, organisationId)"
  const INVALID_JSON_MESSAGE := "Invalid JSON body"

  const INVALID_CREDENTIALS := "INVALID_CREDENTIALS"
  const ORGANISATION_NOT_FOUND := "ORGANISATION_NOT_FOUND"
  const INVALID_SLUG := "INVALID_SLUG"
  const TEAM_URL_TAKEN := "TEAM_URL_TAKEN"

  /** What the credential exchanger answers. */
  datatype ExchangeResult = Exchanged(apiKey: string) | ExchangeFailed(code: string, error: string)

  /** The fields `parseBody` keeps; `exchange` holds credentials, slug and organisation id together or not at all. */
  datatype ParsedBody = ParsedBody(
    apiKey: Option<string>,
    recipientEmail: Option<string>,
    expiresIn: Option<int>,
    exchange: Option<Gateway.ExchangeRequest>)

  /** `isRecord`: a non-null object that is not an array. */
  predicate IsRecord(v: Json.Value) {
    v.Object?
  }

  predicate NoSpaceNoAt(s: string) {
    forall i :: 0 <= i < |s| ==> !Strings.IsSpace(s[i]) && s[i] != '@'
  }

  /** The domain part of `/^[^\s@]+@[^\s@]+\.[^\s@]+$/`: a dot with something on both sides. */
  predicate IsDomainShaped(d: string) {
    NoSpaceNoAt(d) && exists i :: 0 < i < |d| - 1 && d[i] == '.'
  }

  /** `/^[^\s@]+@[^\s@]+\.[^\s@]+$/.test(s)`. */
  predicate IsEmailShaped(s: string) {
    exists k :: 0 < k < |s| && s[k] == '@' && NoSpaceNoAt(s[..k]) && IsDomainShaped(s[k + 1..])
  }

  /** The recipient email kept by `parseBody`: trimmed, lower-cased, and only when email-shaped. */
  function RecipientEmail(field: Option<Json.Value>): (r: Option<string>)
    ensures r.Some? <==>
      field.Some? && field.value.Str? && IsEmailShaped(Strings.ToLower(Strings.Trim(field.value.s)))
    ensures r.Some? ==> r.value == Strings.ToLower(Strings.Trim(field.value.s))
  {
    if field.Some? && field.value.Str? && Strings.Trim(field.value.s) != "" then
      var email := Strings.ToLower(Strings.Trim(field.value.s));
      if IsEmailShaped(email) then Some(email) else None
    else None
  }

  /** `parseBody`: `None` for anything but a record; otherwise the recognised fields. */
  function ParseBody(body: Json.Value): (r: Option<ParsedBody>)
    ensures r.None? <==> !IsRecord(body)
    ensures r.Some? ==>
      var apiKey := Json.Get(body, "apiKey");
      && (r.value.apiKey.Some? <==> apiKey.Some? && apiKey.value.Str? && Strings.Trim(apiKey.value.s) != "")
      && (r.value.apiKey.Some? ==> r.value.apiKey.value == Strings.Trim(apiKey.value.s))
    ensures r.Some? ==>
      var e := Json.Get(body, "expiresIn");
      r.value.expiresIn.Some? <==> e.Some? && e.value.Number? && MIN_EXPIRES_IN <= e.value.n <= MAX_EXPIRES_IN
    ensures r.Some? && r.value.expiresIn.Some? ==> r.value.expiresIn == Some(Json.Get(body, "expiresIn").value.n)
    ensures r.Some? ==> r.value.recipientEmail == RecipientEmail(Json.Get(body, "recipientEmail"))
    ensures r.Some? ==>
      var c := Json.Get(body, "credentials");
      var slug := Json.GetString(body, "slug");
      var org := Json.GetString(body, "organisationId");
      && (r.value.exchange.Some? <==> c.Some? && IsRecord(c.value) && slug.Some? && org.Some?)
      && (r.value.exchange.Some? ==>
            r.value.exchange.value == Gateway.ExchangeRequest(c.value.fields, Strings.Trim(slug.value),
                                                              Strings.Trim(org.value)))
  {
    if !IsRecord(body) then None
    else
      var apiKey := Json.GetString(body, "apiKey");
      var expiresIn := Json.Get(body, "expiresIn");
      var credentials := Json.Get(body, "credentials");
      var slug := Json.GetString(body, "slug");
      var org := Json.GetString(body, "organisationId");
      Some(ParsedBody(
        if apiKey.Some? && Strings.Trim(apiKey.value) != "" then Some(Strings.Trim(apiKey.value)) else None,
        RecipientEmail(Json.Get(body, "recipientEmail")),
        if expiresIn.Some? && expiresIn.value.Number? && MIN_EXPIRES_IN <= expiresIn.value.n <= MAX_EXPIRES_IN
        then Some(expiresIn.value.n) else None,
        if credentials.Some? && IsRecord(credentials.value) && slug.Some? && org.Some?
        then Some(Gateway.ExchangeRequest(credentials.value.fields, Strings.Trim(slug.value), Strings.Trim(org.value)))
        else None))
  }

  /** The exchange is used only without an `apiKey` and with non-empty slug and organisation id. */
  predicate UsesExchange(p: ParsedBody) {
    p.apiKey.None? && p.exchange.Some? && p.exchange.value.slug != "" && p.exchange.value.organisationId != ""
  }

  /** The HTTP status for a failed exchange. */
  function ExchangeStatus(code: string): (status: int)
    ensures status == 401 <==> code == INVALID_CREDENTIALS
    ensures status == 404 <==> code == ORGANISATION_NOT_FOUND || code == INVALID_SLUG
    ensures status == 409 <==> code == TEAM_URL_TAKEN
    ensures status == 400 <==>
      code !in {INVALID_CREDENTIALS, ORGANISATION_NOT_FOUND, INVALID_SLUG, TEAM_URL_TAKEN}
  {
    if code == INVALID_CREDENTIALS then 401
    else if code == ORGANISATION_NOT_FOUND || code == INVALID_SLUG then 404
    else if code == TEAM_URL_TAKEN then 409
    else 400
  }

  /** The presign lifetime used for a parsed body: its kept `expiresIn`, else 60. */
  function EffectiveExpiresIn(p: ParsedBody): int {
    p.expiresIn.GetOr(Client.DEFAULT_EXPIRES_IN)
  }

  /**
   * The presign lifetime always lies in [5, 10080]: the body's `expiresIn` when it
   * is a number in that range, and 60 for anything else (missing, not a number,
   * or out of range: dropped rather than clamped).
   */
  lemma PresignLifetime(body: Json.Value)
    requires ParseBody(body).Some?
    ensures var minutes := EffectiveExpiresIn(ParseBody(body).value);
      var e := Json.Get(body, "expiresIn");
      && MIN_EXPIRES_IN <= minutes <= MAX_EXPIRES_IN
      && (if e.Some? && e.value.Number? && MIN_EXPIRES_IN <= e.value.n <= MAX_EXPIRES_IN
          then minutes == e.value.n else minutes == Client.DEFAULT_EXPIRES_IN)
  {
  }

  /** Mints the presign token with `key` and answers with the authoring link. */
  function Issue(env: Gateway.Env, p: ParsedBody, key: string, before: seq<Gateway.Call>,
                 fetch: Client.HttpRequest -> Client.Reply<Client.PresignToken>): (out: Gateway.Handled)
    ensures |out.calls| >= |before| && out.calls[..|before|] == before
    ensures forall i :: |before| <= i < |out.calls| ==> out.calls[i].Fetch?
    ensures out.response.status in {200, 502}
    // An upstream failure is answered 502 with its message; a minted token is answered 200.
    ensures var token := Client.CreatePresignToken(env.client, key, Some(EffectiveExpiresIn(p)), None, fetch).result;
      && (token.Failure? ==> out.response == Gateway.UpstreamError(token.error))
      && (token.Success? ==> out.response.status == 200)
    ensures out.response.status == 200 ==>
      var token := Client.CreatePresignToken(env.client, key, Some(EffectiveExpiresIn(p)), None, fetch).result;
      && token.Success?
      && out.response.body == Gateway.LinkBody(Client.AuthoringLink(env.client, token.value.token).value,
                                               token.value.expiresAt, token.value.expiresIn, p.recipientEmail)
      && |out.calls| == |before| + 1
      && out.calls[|before|].request.authorization == Client.Bearer(key)
      && out.calls[|before|].request.payload == Client.PresignPayload(EffectiveExpiresIn(p), None)
  {
    var presign := Client.CreatePresignToken(env.client, key, Some(EffectiveExpiresIn(p)), None, fetch);
    var calls := before + Gateway.Trace(presign);
    match presign.result
    case Failure(e) => Gateway.Handled(Gateway.UpstreamError(e), calls)
    case Success(token) =>
      match Client.AuthoringLink(env.client, token.token)
      case Failure(e) => Gateway.Handled(Gateway.UpstreamError(e), calls)
      case Success(link) =>
        Gateway.Handled(
          Gateway.Response(200, Gateway.LinkBody(link, token.expiresAt, token.expiresIn, p.recipientEmail)),
          calls)
  }

  /** The part of the handler after a body was parsed: choose the API key, then issue the link. */
  function Proceed(env: Gateway.Env, p: ParsedBody,
                   exchange: Gateway.ExchangeRequest -> ExchangeResult,
                   fetch: Client.HttpRequest -> Client.Reply<Client.PresignToken>): (out: Gateway.Handled)
    // An apiKey wins: the exchanger is not consulted.
    ensures p.apiKey.Some? ==> out == Issue(env, p, p.apiKey.value, [], fetch)
    ensures p.apiKey.None? && !UsesExchange(p) ==>
      out == Gateway.Handled(Gateway.Error(400, INVALID_REQUEST_MESSAGE, Gateway.INVALID_REQUEST), [])
    // A failed exchange is answered with the status its code maps to, and nothing else is called.
    ensures UsesExchange(p) ==>
      var x := p.exchange.value;
      match exchange(x)
      case ExchangeFailed(code, error) =>
        out == Gateway.Handled(Gateway.Error(ExchangeStatus(code), error, code), [Gateway.Exchange(x)])
      case Exchanged(key) => out == Issue(env, p, key, [Gateway.Exchange(x)], fetch)
  {
    if p.apiKey.Some? then Issue(env, p, p.apiKey.value, [], fetch)
    else if UsesExchange(p) then
      var x := p.exchange.value;
      match exchange(x)
      case ExchangeFailed(code, error) =>
        Gateway.Handled(Gateway.Error(ExchangeStatus(code), error, code), [Gateway.Exchange(x)])
      case Exchanged(key) => Issue(env, p, key, [Gateway.Exchange(x)], fetch)
    else Gateway.Handled(Gateway.Error(400, INVALID_REQUEST_MESSAGE, Gateway.INVALID_REQUEST), [])
  }

  /** `POST /api/document-request`; `body` is `None` when the request body is not JSON. */
  function Post(env: Gateway.Env, h: Gateway.Headers, body: Option<Json.Value>,
                exchange: Gateway.ExchangeRequest -> ExchangeResult,
                fetch: Client.HttpRequest -> Client.Reply<Client.PresignToken>): (out: Gateway.Handled)
    // The secret checks come first and call nothing downstream.
    ensures Gateway.Guard(env, h).Some? ==> out == Gateway.Handled(Gateway.Guard(env, h).value, [])
    ensures Gateway.Guard(env, h).None? && body.None? ==>
      out == Gateway.Handled(Gateway.Error(400, INVALID_JSON_MESSAGE, Gateway.INVALID_JSON), [])
    ensures Gateway.Guard(env, h).None? && body.Some? && ParseBody(body.value).None? ==>
      out == Gateway.Handled(Gateway.Error(400, INVALID_REQUEST_MESSAGE, Gateway.INVALID_REQUEST), [])
    ensures Gateway.Guard(env, h).None? && body.Some? && ParseBody(body.value).Some? ==>
      out == Proceed(env, ParseBody(body.value).value, exchange, fetch)
  {
    match Gateway.Guard(env, h)
    case Some(refused) => Gateway.Handled(refused, [])
    case None =>
      match body
      case None => Gateway.Handled(Gateway.Error(400, INVALID_JSON_MESSAGE, Gateway.INVALID_JSON), [])
      case Some(b) =>
        match ParseBody(b)
        case None => Gateway.Handled(Gateway.Error(400, INVALID_REQUEST_MESSAGE, Gateway.INVALID_REQUEST), [])
        case Some(p) => Proceed(env, p, exchange, fetch)
  }

  /**
   * After parsing, the exchanger is called at most once, first, and only without
   * an `apiKey`; every 200 answer ends with the presign call for the body's lifetime.
   */
  lemma ProceedCallsInOrder(env: Gateway.Env, p: ParsedBody,
                            exchange: Gateway.ExchangeRequest -> ExchangeResult,
                            fetch: Client.HttpRequest -> Client.Reply<Client.PresignToken>)
    ensures var out := Proceed(env, p, exchange, fetch);
      && (forall i :: 0 < i < |out.calls| ==> out.calls[i].Fetch?)
      && (|out.calls| > 0 && out.calls[0].Exchange? ==> p.apiKey.None?)
      && (out.response.status == 200 ==>
            && |out.calls| > 0 && out.calls[|out.calls| - 1].Fetch?
            && out.calls[|out.calls| - 1].request.payload == Client.PresignPayload(EffectiveExpiresIn(p), None))
  {
    if p.apiKey.None? && UsesExchange(p) {
      match exchange(p.exchange.value)
      case ExchangeFailed(_, _) =>
      case Exchanged(key) =>
        var out := Issue(env, p, key, [Gateway.Exchange(p.exchange.value)], fetch);
        assert out.calls[0] == Gateway.Exchange(p.exchange.value);
    }
  }

  /**
   * Whatever the request, the exchanger is called at most once and only for a body
   * with no apiKey; and every 200 answer follows a presign call, made last, whose
   * lifetime is in [5, 10080] and which carries no scope.
   */
  lemma PostCallsInOrder(env: Gateway.Env, h: Gateway.Headers, body: Option<Json.Value>,
                         exchange: Gateway.ExchangeRequest -> ExchangeResult,
                         fetch: Client.HttpRequest -> Client.Reply<Client.PresignToken>)
    ensures var out := Post(env, h, body, exchange, fetch);
      && (forall i :: 0 < i < |out.calls| ==> out.calls[i].Fetch?)
      && (|out.calls| > 0 && out.calls[0].Exchange? ==>
            Gateway.Guard(env, h).None? && body.Some? && ParseBody(body.value).Some? &&
            ParseBody(body.value).value.apiKey.None?)
      && (out.response.status == 200 ==>
            && |out.calls| > 0 && out.calls[|out.calls| - 1].Fetch?
            && var payload := out.calls[|out.calls| - 1].request.payload;
               payload.PresignPayload? && payload.scope.None?
               && MIN_EXPIRES_IN <= payload.expiresIn <= MAX_EXPIRES_IN)
  {
    if Gateway.Guard(env, h).None? && body.Some? && ParseBody(body.value).Some? {
      PresignLifetime(body.value);
      ProceedCallsInOrder(env, ParseBody(body.value).value, exchange, fetch);
    }
  }

  /** `OPTIONS /api/document-request`. */
  function Options(): Gateway.Response {
    Gateway.Preflight()
  }
}
