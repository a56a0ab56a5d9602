/**
 * `GET /api/templates`: after the shared-secret check and the Documenso API
 * key lookup, lists one page of the caller's templates, passing the upstream
 * answer through unchanged.
 */
module TemplatesListRoute {
  import opened Wrappers
  import Numbers
  import Uri
  import Json
  import Gateway
  import Client = DocumensoClient

  const MISSING_API_KEY :=
    "Missing Documenso API key. Pass via X-Documenso-API-Key header or apiKey query param (from /api/exchange)"
  const DEFAULT_PAGE := 1
  const DEFAULT_PER_PAGE := 10
  const MAX_PER_PAGE := 100

  function QueryValue(query: map<string, string>, key: string): Option<string> {
    if key in query then Some(query[key]) else None
  }

  /** `Math.max(1, Number(page) || 1)`. */
  function Page(query: map<string, string>): (page: int)
    ensures page >= DEFAULT_PAGE
    ensures "page" in query && Numbers.ParseNumber(query["page"]).Some? &&
            Numbers.ParseNumber(query["page"]).value >= 1 ==>
      Some(page) == Numbers.ParseNumber(query["page"])
    ensures page != DEFAULT_PAGE ==> "page" in query && Numbers.ParseNumber(query["page"]) == Some(page)
  {
    var n := Numbers.NumberOr(QueryValue(query, "page"), DEFAULT_PAGE);
    if n < 1 then 1 else n
  }

  /** `Math.min(100, Math.max(1, Number(perPage) || 10))`. */
  function PerPage(query: map<string, string>): (perPage: int)
    ensures 1 <= perPage <= MAX_PER_PAGE
    ensures "perPage" in query && Numbers.ParseNumber(query["perPage"]).Some? &&
            Numbers.ParseNumber(query["perPage"]).value != 0 ==>
      var n := Numbers.ParseNumber(query["perPage"]).value;
      perPage == (if n < 1 then 1 else if n > MAX_PER_PAGE then MAX_PER_PAGE else n)
    ensures !("perPage" in query && Numbers.ParseNumber(query["perPage"]).Some? &&
              Numbers.ParseNumber(query["perPage"]).value != 0) ==>
      perPage == DEFAULT_PER_PAGE
  {
    var n := Numbers.NumberOr(QueryValue(query, "perPage"), DEFAULT_PER_PAGE);
    if n < 1 then 1 else if n > MAX_PER_PAGE then MAX_PER_PAGE else n
  }

  /** `GET /api/templates`; `query` maps each search parameter to its first value. */
  function Get(env: Gateway.Env, h: Gateway.Headers, query: map<string, string>,
               fetch: Client.HttpRequest -> Client.Reply<Json.Value>): (out: Gateway.Handled)
    ensures Gateway.Guard(env, h).Some? ==> out == Gateway.Handled(Gateway.Guard(env, h).value, [])
    ensures Gateway.Guard(env, h).None? && Gateway.DocumensoApiKey(h, query).None? ==>
      out == Gateway.Handled(Gateway.Error(400, MISSING_API_KEY, Gateway.INVALID_REQUEST), [])
    // The upstream page is passed through verbatim; any failure becomes 502.
    ensures Gateway.Guard(env, h).None? && Gateway.DocumensoApiKey(h, query).Some? ==>
      var listed := Client.GetTemplates(env.client, Gateway.DocumensoApiKey(h, query).value,
                                        Some(Page(query)), Some(PerPage(query)), fetch);
      && out.calls == Gateway.Trace(listed)
      && match listed.result
         case Success(page) => out.response == Gateway.Response(200, Gateway.TemplatesBody(page))
         case Failure(e) => out.response == Gateway.UpstreamError(e)
  {
    match Gateway.Guard(env, h)
    case Some(refused) => Gateway.Handled(refused, [])
    case None =>
      match Gateway.DocumensoApiKey(h, query)
      case None => Gateway.Handled(Gateway.Error(400, MISSING_API_KEY, Gateway.INVALID_REQUEST), [])
      case Some(apiKey) =>
        var listed := Client.GetTemplates(env.client, apiKey, Some(Page(query)), Some(PerPage(query)), fetch);
        match listed.result
        case Success(page) => Gateway.Handled(Gateway.Response(200, Gateway.TemplatesBody(page)), Gateway.Trace(listed))
        case Failure(e) => Gateway.Handled(Gateway.UpstreamError(e), Gateway.Trace(listed))
  }

  /**
   * When the route calls upstream, the request always carries both `page` and
   * `perPage`, in that order, with the values the route settled on.
   */
  lemma ListingRequestsBothParameters(env: Gateway.Env, h: Gateway.Headers, query: map<string, string>,
                                      fetch: Client.HttpRequest -> Client.Reply<Json.Value>)
    requires Get(env, h, query, fetch).calls != []
    ensures var out := Get(env, h, query, fetch);
      exists q :: out.calls[0].request.url == Client.BaseUrl(env.client).value + Client.TEMPLATES_PATH + "?" + q
        && Uri.ParseQuery(q) == Some([("page", Numbers.IntToString(Page(query))),
                                      ("perPage", Numbers.IntToString(PerPage(query)))])
  {
    var base := Client.BaseUrl(env.client).value;
    var apiKey := Gateway.DocumensoApiKey(h, query).value;
    var listed := Client.GetTemplates(env.client, apiKey, Some(Page(query)), Some(PerPage(query)), fetch);
    assert Get(env, h, query, fetch).calls == Gateway.Trace(listed);
    assert listed.request.value.url == Client.TemplatesUrl(base, Some(Page(query)), Some(PerPage(query)));
    assert Client.TemplatesQuery(Some(Page(query)), Some(PerPage(query)))
      == [("page", Numbers.IntToString(Page(query))), ("perPage", Numbers.IntToString(PerPage(query)))];
    Client.TemplatesUrlQuery(base, Some(Page(query)), Some(PerPage(query)));
  }

  /** `OPTIONS /api/templates`. */
  function Options(): Gateway.Response {
    Gateway.Preflight()
  }
}
