/**
 * The client the gateway uses to reach the document platform: base-URL
 * resolution, the presign-token, template-listing, template-upload and
 * envelope-creation requests, and the two authoring-link builders.
 *
 * `fetch` is a parameter: each operation builds the one HTTP request it would
 * send, hands it to `fetch`, and interprets the reply. A `Sent` value records
 * the request actually sent (`None` when the operation failed before sending).
 */
module DocumensoClient {
  import opened Wrappers
  import Strings
  import Numbers
  import Uri
  import Json

  const URL_NOT_SET := "DOCUMENSO_URL or NEXT_PUBLIC_DOCUMENSO_URL is not set"
  const PRESIGN_PATH := "/api/v2-beta/embedding/create-presign-token"
  const TEMPLATES_PATH := "/api/v1/templates"
  const CREATE_TEMPLATE_PATH := "/api/v2-beta/template/create"
  const ENVELOPE_PATH := "/api/v2/template/"
  const ENVELOPE_SUFFIX := "/create-envelope"
  const CREATE_LINK_PATH := "/embed/v1/authoring/template/create?token="
  const EDIT_LINK_PATH := "/embed/v1/authoring/template/edit/"
  const TOKEN_PARAM := "?token="
  /** Upstream error bodies are quoted up to this many characters. */
  const ERROR_BODY_LIMIT := 300
  /** Presign lifetime in minutes when the caller gives none. */
  const DEFAULT_EXPIRES_IN := 60

  /** The deployment's configuration of the platform's address. */
  datatype Env = Env(documensoUrl: Option<string>, publicDocumensoUrl: Option<string>)

  /** An uploaded file, forwarded byte for byte. */
  datatype File = File(name: string, mimeType: string, bytes: seq<Uri.Byte>)

  /** The body of a create-envelope request. */
  datatype EnvelopeRequest = EnvelopeRequest(
    recipientEmail: string,
    recipientName: Option<string>,
    title: Option<string>,
    prefillFields: Option<seq<Json.Value>>)

  datatype Method = Get | Post

  /** Request bodies; `PresignPayload` is the JSON `{expiresIn, scope}` (an absent scope is omitted). */
  datatype Payload =
    | NoPayload
    | PresignPayload(expiresIn: int, scope: Option<string>)
    | TemplateUpload(title: string, file: File)
    | EnvelopePayload(request: EnvelopeRequest)

  datatype HttpRequest = HttpRequest(verb: Method, url: string, authorization: string, payload: Payload)

  /** What `fetch` yields: a network error, or a status with the body as text and as parsed JSON (or the parse error). */
  datatype Reply<T> = NetworkError(message: string) | Reply(status: int, text: string, json: Result<T, string>)

  /** The outcome of an operation and the request it sent, if any. */
  datatype Sent<T> = Sent(result: Result<T, string>, request: Option<HttpRequest>)

  datatype PresignToken = PresignToken(token: string, expiresAt: string, expiresIn: int)

  datatype CreatedTemplate = CreatedTemplate(envelopeId: string, id: int)

  datatype CreatedEnvelope = CreatedEnvelope(envelopeId: string, signingUrl: string, signingToken: string)

  /** `Response.ok`. */
  predicate Ok(status: int) {
    200 <= status < 300
  }

  /** Removes one trailing `/`, as `replace(/\/$/, '')` does. */
  function StripTrailingSlash(s: string): (r: string)
    ensures r + "/" == s || r == s
    ensures r + "/" == s <==> Strings.EndsWith(s, "/")
  {
    if |s| > 0 && s[|s| - 1] == '/' then s[..|s| - 1] else s
  }

  /**
   * `getDocumensoUrl`: `DOCUMENSO_URL ?? NEXT_PUBLIC_DOCUMENSO_URL`, failing when
   * the chosen value is absent or empty, with one trailing slash removed.
   */
  function BaseUrl(env: Env): (r: Result<string, string>)
    ensures env.documensoUrl.Some? ==>
      (r.Success? <==> env.documensoUrl.value != "")
      && (r.Success? ==> r.value == StripTrailingSlash(env.documensoUrl.value))
    ensures env.documensoUrl.None? ==>
      (r.Success? <==> env.publicDocumensoUrl.Some? && env.publicDocumensoUrl.value != "")
      && (r.Success? ==> r.value == StripTrailingSlash(env.publicDocumensoUrl.value))
    ensures r.Failure? ==> r.error == URL_NOT_SET
  {
    var url := if env.documensoUrl.Some? then env.documensoUrl else env.publicDocumensoUrl;
    if url.None? || url.value == "" then Failure(URL_NOT_SET)
    else Success(StripTrailingSlash(url.value))
  }

  /** The first `n` characters of `s` (`s.slice(0, n)`). */
  function Truncate(s: string, n: nat): (r: string)
    ensures |r| <= n && Strings.StartsWith(s, r)
    ensures |r| == n || r == s
  {
    if |s| <= n then s else s[..n]
  }

  /** The start of every upstream failure message: the operation and the status. */
  function FailureHead(operation: string, status: int): string {
    "Documenso " + operation + " failed (" + Numbers.IntToString(status) + "): "
  }

  /** The message a non-ok reply turns into: the head, then the start of the body. */
  function FailureMessage(operation: string, status: int, text: string): string {
    FailureHead(operation, status) + Truncate(text, ERROR_BODY_LIMIT)
  }

  /**
   * How every operation reads its reply: it succeeds only on an ok reply whose
   * JSON parsed, and then yields that JSON; a network error keeps its message;
   * a non-ok reply fails with a message naming the operation and the status and
   * quoting the body's first 300 characters (all of it when shorter).
   */
  function Interpret<T>(operation: string, reply: Reply<T>): (r: Result<T, string>)
    ensures r.Success? <==> reply.Reply? && Ok(reply.status) && reply.json.Success?
    ensures r.Success? ==> r.value == reply.json.value
    ensures reply.NetworkError? ==> r.error == reply.message
    ensures reply.Reply? && Ok(reply.status) && reply.json.Failure? ==> r.error == reply.json.error
    ensures reply.Reply? && !Ok(reply.status) ==>
      var head := FailureHead(operation, reply.status);
      && Strings.StartsWith(r.error, head)
      && Strings.StartsWith(reply.text, r.error[|head|..])
      && |r.error| <= |head| + ERROR_BODY_LIMIT
      && (|r.error| == |head| + ERROR_BODY_LIMIT || r.error == head + reply.text)
  {
    match reply
    case NetworkError(m) => Failure(m)
    case Reply(status, text, json) =>
      if !Ok(status) then
        var head := FailureHead(operation, status);
        var m := FailureMessage(operation, status, text);
        assert m[..|head|] == head && m[|head|..] == Truncate(text, ERROR_BODY_LIMIT);
        Failure(m)
      else json
  }

  function Bearer(apiKey: string): string {
    "Bearer " + apiKey
  }

  /** A request is sent exactly when the base URL resolves; otherwise the operation fails with the configuration message. */
  predicate SentWhenConfigured<T>(env: Env, s: Sent<T>) {
    && (s.request.Some? <==> BaseUrl(env).Success?)
    && (s.request.None? ==> s.result == Failure(URL_NOT_SET))
  }

  /** `createPresignToken(apiKey, {expiresIn, scope})`. */
  function CreatePresignToken(env: Env, apiKey: string, expiresIn: Option<int>, scope: Option<string>,
                              fetch: HttpRequest -> Reply<PresignToken>): (s: Sent<PresignToken>)
    ensures SentWhenConfigured(env, s)
    ensures s.request.Some? ==>
      var req := s.request.value;
      && req.verb == Post && req.url == BaseUrl(env).value + PRESIGN_PATH
      && req.authorization == "Bearer " + apiKey
      && req.payload.PresignPayload?
      && req.payload.expiresIn == (if expiresIn.Some? then expiresIn.value else DEFAULT_EXPIRES_IN)
      && req.payload.scope == scope
      && s.result == Interpret("create-presign-token", fetch(req))
  {
    match BaseUrl(env)
    case Failure(e) => Sent(Failure(e), None)
    case Success(base) =>
      var req := HttpRequest(Post, base + PRESIGN_PATH, Bearer(apiKey),
                             PresignPayload(expiresIn.GetOr(DEFAULT_EXPIRES_IN), scope));
      Sent(Interpret("create-presign-token", fetch(req)), Some(req))
  }

  /** The query pairs `getTemplates` sets: each option only when truthy (present and non-zero). */
  function TemplatesQuery(page: Option<int>, perPage: Option<int>): seq<(string, string)> {
    (if page.Some? && page.value != 0 then [("page", Numbers.IntToString(page.value))] else [])
    + (if perPage.Some? && perPage.value != 0 then [("perPage", Numbers.IntToString(perPage.value))] else [])
  }

  /** The templates URL: a `?query` suffix only when some parameter was set. */
  function TemplatesUrl(base: string, page: Option<int>, perPage: Option<int>): string {
    WithQuery(base + TEMPLATES_PATH, TemplatesQuery(page, perPage))
  }

  /** `url.search = params.toString()` on a URL without a query: `?` and the query, unless it is empty. */
  function WithQuery(url: string, pairs: seq<(string, string)>): string {
    var q := Uri.SerializeQuery(pairs);
    url + (if q != "" then "?" + q else "")
  }

  /** `getTemplates(apiKey, {page, perPage})`. */
  function GetTemplates(env: Env, apiKey: string, page: Option<int>, perPage: Option<int>,
                        fetch: HttpRequest -> Reply<Json.Value>): (s: Sent<Json.Value>)
    ensures SentWhenConfigured(env, s)
    ensures s.request.Some? ==>
      var req := s.request.value;
      && req.verb == Get && req.url == TemplatesUrl(BaseUrl(env).value, page, perPage)
      && req.authorization == "Bearer " + apiKey
      && req.payload.NoPayload?
      && s.result == Interpret("get-templates", fetch(req))
  {
    match BaseUrl(env)
    case Failure(e) => Sent(Failure(e), None)
    case Success(base) =>
      var req := HttpRequest(Get, TemplatesUrl(base, page, perPage), Bearer(apiKey), NoPayload);
      Sent(Interpret("get-templates", fetch(req)), Some(req))
  }

  /** `createTemplate(apiKey, formData)` with the form holding `payload = {title}` and `file`. */
  function CreateTemplate(env: Env, apiKey: string, title: string, file: File,
                          fetch: HttpRequest -> Reply<CreatedTemplate>): (s: Sent<CreatedTemplate>)
    ensures SentWhenConfigured(env, s)
    ensures s.request.Some? ==>
      var req := s.request.value;
      && req.verb == Post && req.url == BaseUrl(env).value + CREATE_TEMPLATE_PATH
      && req.authorization == "Bearer " + apiKey
      && req.payload.TemplateUpload? && req.payload.title == title && req.payload.file == file
      && s.result == Interpret("create-template", fetch(req))
  {
    match BaseUrl(env)
    case Failure(e) => Sent(Failure(e), None)
    case Success(base) =>
      var req := HttpRequest(Post, base + CREATE_TEMPLATE_PATH, Bearer(apiKey), TemplateUpload(title, file));
      Sent(Interpret("create-template", fetch(req)), Some(req))
  }

  /** The create-envelope URL: the template's envelope id percent-encoded as one path segment. */
  function EnvelopeUrl(base: string, templateEnvelopeId: string): string {
    base + ENVELOPE_PATH + Uri.EncodeComponent(templateEnvelopeId) + ENVELOPE_SUFFIX
  }

  /** `createEnvelope(apiKey, templateEnvelopeId, body)`. */
  function CreateEnvelope(env: Env, apiKey: string, templateEnvelopeId: string, body: EnvelopeRequest,
                          fetch: HttpRequest -> Reply<CreatedEnvelope>): (s: Sent<CreatedEnvelope>)
    ensures SentWhenConfigured(env, s)
    ensures s.request.Some? ==>
      var req := s.request.value;
      && req.verb == Post && req.url == EnvelopeUrl(BaseUrl(env).value, templateEnvelopeId)
      && req.authorization == "Bearer " + apiKey
      && req.payload.EnvelopePayload? && req.payload.request == body
      && s.result == Interpret("create-envelope", fetch(req))
  {
    match BaseUrl(env)
    case Failure(e) => Sent(Failure(e), None)
    case Success(base) =>
      var req := HttpRequest(Post, EnvelopeUrl(base, templateEnvelopeId), Bearer(apiKey), EnvelopePayload(body));
      Sent(Interpret("create-envelope", fetch(req)), Some(req))
  }

  /** `buildTemplateAuthoringLink(token)`. */
  function AuthoringLink(env: Env, token: string): (r: Result<string, string>)
    ensures r.Success? <==> BaseUrl(env).Success?
    ensures r.Failure? ==> r.error == URL_NOT_SET
  {
    match BaseUrl(env)
    case Failure(e) => Failure(e)
    case Success(base) => Success(base + CREATE_LINK_PATH + Uri.EncodeComponent(token))
  }

  /** What follows the edit path: the template id, then the encoded token as the `token` parameter. */
  function EditTail(id: int, token: string): string {
    Numbers.IntToString(id) + (TOKEN_PARAM + Uri.EncodeComponent(token))
  }

  /** `buildTemplateEditAuthoringLink(id, token)`. */
  function EditAuthoringLink(env: Env, id: int, token: string): (r: Result<string, string>)
    ensures r.Success? <==> BaseUrl(env).Success?
    ensures r.Failure? ==> r.error == URL_NOT_SET
  {
    match BaseUrl(env)
    case Failure(e) => Failure(e)
    case Success(base) =>
      Success(base + EDIT_LINK_PATH + EditTail(id, token))
  }

  // ---------------------------------------------------------------------------
  // Reading links and URLs back: the builders lose no information.
  // ---------------------------------------------------------------------------

  /** The presign token carried by a create-authoring link under `base`. */
  function TokenOfAuthoringLink(base: string, link: string): Option<string> {
    var prefix := base + CREATE_LINK_PATH;
    if Strings.StartsWith(link, prefix) then Uri.Decode(Uri.Component, link[|prefix|..]) else None
  }

  /** Reads `<id>?token=<encoded token>`. */
  function EditLinkTail(rest: string): Option<(int, string)> {
    var q := Strings.IndexOf(rest, '?');
    if q == -1 || !Strings.StartsWith(rest[q..], TOKEN_PARAM) then None
    else match (Numbers.ParseInt(rest[..q]), Uri.Decode(Uri.Component, rest[q + |TOKEN_PARAM|..]))
      case (Some(id), Some(token)) => Some((id, token))
      case _ => None
  }

  /** The template id and presign token carried by an edit-authoring link under `base`. */
  function PartsOfEditLink(base: string, link: string): Option<(int, string)> {
    var prefix := base + EDIT_LINK_PATH;
    if Strings.StartsWith(link, prefix) then EditLinkTail(link[|prefix|..]) else None
  }

  /** The template envelope id named by a create-envelope URL under `base`. */
  function TemplateIdOfEnvelopeUrl(base: string, url: string): Option<string> {
    var prefix := base + ENVELOPE_PATH;
    if |prefix| + |ENVELOPE_SUFFIX| <= |url| && Strings.StartsWith(url, prefix)
       && Strings.EndsWith(url, ENVELOPE_SUFFIX)
    then Uri.Decode(Uri.Component, url[|prefix|..|url| - |ENVELOPE_SUFFIX|])
    else None
  }

  /** The token is recoverable from the create-authoring link, encoded exactly once. */
  lemma AuthoringLinkCarriesToken(env: Env, token: string)
    requires BaseUrl(env).Success?
    ensures TokenOfAuthoringLink(BaseUrl(env).value, AuthoringLink(env, token).value) == Some(token)
  {
    var prefix := BaseUrl(env).value + CREATE_LINK_PATH;
    var link := AuthoringLink(env, token).value;
    assert link == prefix + Uri.EncodeComponent(token);
    assert link[..|prefix|] == prefix;
    assert link[|prefix|..] == Uri.EncodeComponent(token);
    Uri.DecodeEncode(Uri.Component, token);
  }

  /** Reading a tail whose first `?` follows `digits` and starts `?token=<enc>`. */
  lemma EditLinkTailAt(rest: string, digits: string, enc: string, id: int, token: string)
    requires Strings.IndexOf(rest, '?') == |digits| && rest[..|digits|] == digits
    requires Strings.StartsWith(rest[|digits|..], TOKEN_PARAM) && rest[|digits| + |TOKEN_PARAM|..] == enc
    requires Numbers.ParseInt(digits) == Some(id)
    requires Uri.Decode(Uri.Component, enc) == Some(token)
    ensures EditLinkTail(rest) == Some((id, token))
  {
  }

  /** Reading `<digits>?token=<enc>` splits at the `?`, which the digits do not contain. */
  lemma EditLinkTailSplit(digits: string, enc: string, id: int, token: string)
    requires '?' !in digits
    requires Numbers.ParseInt(digits) == Some(id)
    requires Uri.Decode(Uri.Component, enc) == Some(token)
    ensures EditLinkTail(digits + (TOKEN_PARAM + enc)) == Some((id, token))
  {
    var rest := digits + (TOKEN_PARAM + enc);
    Strings.IndexOfAt(digits, TOKEN_PARAM + enc, '?');
    assert rest[..|digits|] == digits;
    assert rest[|digits|..] == TOKEN_PARAM + enc;
    assert rest[|digits| + |TOKEN_PARAM|..] == enc;
    EditLinkTailAt(rest, digits, enc, id, token);
  }

  lemma EditLinkTailOf(id: int, token: string)
    ensures EditLinkTail(EditTail(id, token)) == Some((id, token))
  {
    Numbers.IntToStringPlain(id);
    Numbers.ParseIntToString(id);
    Uri.DecodeEncode(Uri.Component, token);
    EditLinkTailSplit(Numbers.IntToString(id), Uri.EncodeComponent(token), id, token);
  }

  /** An edit link under `base` is read from the text after the edit path. */
  lemma PartsOfEditLinkOf(base: string, tail: string)
    ensures PartsOfEditLink(base, base + EDIT_LINK_PATH + tail) == EditLinkTail(tail)
  {
    var prefix := base + EDIT_LINK_PATH;
    assert (prefix + tail)[..|prefix|] == prefix;
    assert (prefix + tail)[|prefix|..] == tail;
  }

  /** The template id and the token are both recoverable from the edit-authoring link. */
  lemma EditLinkCarriesIdAndToken(env: Env, id: int, token: string)
    requires BaseUrl(env).Success?
    ensures PartsOfEditLink(BaseUrl(env).value, EditAuthoringLink(env, id, token).value) == Some((id, token))
  {
    var base := BaseUrl(env).value;
    PartsOfEditLinkOf(base, EditTail(id, token));
    EditLinkTailOf(id, token);
  }

  /** The template envelope id is recoverable from the create-envelope URL, whatever characters it holds. */
  lemma EnvelopeUrlCarriesTemplateId(base: string, templateEnvelopeId: string)
    ensures TemplateIdOfEnvelopeUrl(base, EnvelopeUrl(base, templateEnvelopeId)) == Some(templateEnvelopeId)
  {
    var prefix := base + ENVELOPE_PATH;
    var enc := Uri.EncodeComponent(templateEnvelopeId);
    var url := EnvelopeUrl(base, templateEnvelopeId);
    assert url == prefix + enc + ENVELOPE_SUFFIX;
    assert url[..|prefix|] == prefix;
    assert url[|url| - |ENVELOPE_SUFFIX|..] == ENVELOPE_SUFFIX;
    assert url[|prefix|..|url| - |ENVELOPE_SUFFIX|] == enc;
    Uri.DecodeEncode(Uri.Component, templateEnvelopeId);
  }

  /**
   * The templates URL carries a query exactly when `page` or `perPage` is truthy,
   * and that query parses back to exactly the truthy parameters, in order.
   */
  lemma TemplatesUrlQuery(base: string, page: Option<int>, perPage: Option<int>)
    ensures var url := TemplatesUrl(base, page, perPage);
            var pairs := TemplatesQuery(page, perPage);
            && (pairs == [] ==> url == base + TEMPLATES_PATH)
            && (pairs != [] ==> exists q :: url == base + TEMPLATES_PATH + "?" + q && Uri.ParseQuery(q) == Some(pairs))
    ensures (TemplatesQuery(page, perPage) == []) <==> !(page.Some? && page.value != 0) && !(perPage.Some? && perPage.value != 0)
  {
    WithQueryParses(base + TEMPLATES_PATH, TemplatesQuery(page, perPage));
  }

  lemma WithQueryParses(url: string, pairs: seq<(string, string)>)
    ensures pairs == [] ==> WithQuery(url, pairs) == url
    ensures pairs != [] ==> exists q :: WithQuery(url, pairs) == url + "?" + q && Uri.ParseQuery(q) == Some(pairs)
  {
    Uri.SerializeQueryEmptyIff(pairs);
  }
}
