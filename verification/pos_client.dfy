/**
 * The point-of-sale credential check: a signed `GET /apps/any/test` against
 * the merchant's host, judged by the reply's status and JSON body.
 *
 * The clock, the HMAC-SHA256 signer and the network are parameters: `now` is
 * `new Date().toISOString()`, `sign(message, key)` is the base64 HMAC digest,
 * and `fetch(url)` is the reply to the request.
 */
module PosClient {
  import opened Wrappers
  import Strings
  import Numbers
  import Uri
  import Json
  import Client = DocumensoClient

  const HTTP_SCHEME := "http://"
  const HTTPS_SCHEME := "https://"
  const TEST_PATH := "/apps/any/test"
  const ERROR_BODY_LIMIT := 200
  const MISSING_CREDENTIALS := "Missing host, accessKey, or secretKey"
  const INVALID_JSON := "POS API returned invalid JSON"
  const NULL_ERROR_READ := "Cannot read properties of null (reading 'error')"

  datatype Credentials = Credentials(host: string, accessKey: string, secretKey: string, appId: Option<int>)

  /** The reply to the test request; `json` is `None` when the body is not JSON. */
  datatype PosReply = NetworkFailure(message: string) | PosReply(status: int, text: string, json: Option<Json.Value>)

  datatype Validation = Valid | Invalid(error: string)

  /** A validation together with the URL requested, if any. */
  datatype Checked = Checked(result: Validation, url: Option<string>)

  /** What the code as written does: return a validation, or throw past its caller. */
  datatype Outcome = Returned(checked: Checked) | Threw(message: string)

  predicate HasScheme(s: string) {
    Strings.StartsWith(s, HTTP_SCHEME) || Strings.StartsWith(s, HTTPS_SCHEME)
  }

  /** `normalizeHost`: trimmed, with `https://` added unless an http(s) scheme is present. */
  function NormalizeHost(host: string): (r: string)
    ensures HasScheme(r)
    ensures HasScheme(Strings.Trim(host)) ==> r == Strings.Trim(host)
    ensures !HasScheme(Strings.Trim(host)) ==> r == HTTPS_SCHEME + Strings.Trim(host)
  {
    var trimmed := Strings.Trim(host);
    if !HasScheme(trimmed) then
      assert (HTTPS_SCHEME + trimmed)[..|HTTPS_SCHEME|] == HTTPS_SCHEME;
      HTTPS_SCHEME + trimmed
    else trimmed
  }

  /** A normalised host has no surrounding whitespace. */
  lemma NormalizedIsTrimmed(host: string)
    ensures Strings.Trim(NormalizeHost(host)) == NormalizeHost(host)
  {
    var trimmed := Strings.Trim(host);
    if HasScheme(trimmed) {
      Strings.TrimIdempotent(host);
    } else {
      var r := HTTPS_SCHEME + trimmed;
      Strings.TrimmedEnds(host);
      assert !Strings.IsSpace(r[0]);
      assert !Strings.IsSpace(r[|r| - 1]) by {
        if trimmed != [] {
          assert r[|r| - 1] == trimmed[|trimmed| - 1];
        }
      }
      Strings.TrimOfTrimmed(r);
    }
  }

  /** Normalising a normalised host changes nothing. */
  lemma NormalizeHostIdempotent(host: string)
    ensures NormalizeHost(NormalizeHost(host)) == NormalizeHost(host)
  {
    NormalizedIsTrimmed(host);
  }

  /** The `.ddd` milliseconds and `Z` at the end of an ISO timestamp. */
  predicate HasMillis(s: string) {
    |s| >= 5 && s[|s| - 5] == '.' && Numbers.AllDigits(s[|s| - 4..|s| - 1]) && s[|s| - 1] == 'Z'
  }

  /** `replace(/\.\d{3}Z$/, 'Z')`: drops the milliseconds of a UTC timestamp. */
  function StripMillis(iso: string): (r: string)
    ensures r == iso <==> !HasMillis(iso)
    ensures HasMillis(iso) ==> |r| == |iso| - 4 && Strings.StartsWith(iso, r[..|r| - 1])
    ensures Strings.EndsWith(iso, "Z") ==> Strings.EndsWith(r, "Z")
  {
    if HasMillis(iso) then iso[..|iso| - 5] + "Z" else iso
  }

  /** An ISO timestamp with milliseconds loses exactly them. */
  lemma StripMillisOfIso(stamp: string, millis: string)
    requires |millis| == 3 && Numbers.AllDigits(millis)
    ensures StripMillis(stamp + "." + millis + "Z") == stamp + "Z"
  {
    var s := stamp + "." + millis + "Z";
    assert s[|s| - 4..|s| - 1] == millis;
    assert s[..|s| - 5] == stamp;
  }

  /** The parameters of the test request, in the order `URLSearchParams` keeps them. */
  function TestParams(accessKey: string, timestamp: string, signature: string): seq<(string, string)> {
    [("accesskey", accessKey), ("timestamp", timestamp), ("signature", signature)]
  }

  /** The signed test URL under the normalised host. */
  function TestUrl(host: string, accessKey: string, timestamp: string, signature: string): string {
    Client.StripTrailingSlash(NormalizeHost(host)) + TEST_PATH + "?"
      + Uri.SerializeQuery(TestParams(accessKey, timestamp, signature))
  }

  /** The access key, timestamp and signature come back out of the test URL unchanged, whatever they contain. */
  lemma TestUrlCarriesParameters(host: string, accessKey: string, timestamp: string, signature: string)
    ensures var url := TestUrl(host, accessKey, timestamp, signature);
      var prefix := Client.StripTrailingSlash(NormalizeHost(host)) + TEST_PATH + "?";
      Strings.StartsWith(url, prefix) && Uri.ParseQuery(url[|prefix|..]) == Some(TestParams(accessKey, timestamp, signature))
  {
    var prefix := Client.StripTrailingSlash(NormalizeHost(host)) + TEST_PATH + "?";
    var q := Uri.SerializeQuery(TestParams(accessKey, timestamp, signature));
    var url := prefix + q;
    assert url[..|prefix|] == prefix;
    assert url[|prefix|..] == q;
    Uri.ParseSerializeQuery(TestParams(accessKey, timestamp, signature));
  }

  /** The request the validator sends, once the credentials are complete. */
  function SignedUrl(c: Credentials, now: string, sign: (string, string) -> string): string {
    var timestamp := StripMillis(now);
    TestUrl(c.host, c.accessKey, timestamp, sign(TEST_PATH + timestamp, c.secretKey))
  }

  predicate Complete(c: Credentials) {
    c.host != "" && c.accessKey != "" && c.secretKey != ""
  }

  /** `json.error` is truthy: only an object can carry it. */
  predicate CarriesError(json: Json.Value) {
    json.Object? && "error" in json.fields && Json.Truthy(json.fields["error"])
  }

  /** Judges a reply; a `null` body is judged like any other body without an `error`. */
  function Judge(reply: PosReply): (v: Validation)
    ensures v.Valid? <==> reply.PosReply? && Client.Ok(reply.status) && reply.json.Some? && !CarriesError(reply.json.value)
  {
    match reply
    case NetworkFailure(message) => Invalid("POS API request failed: " + message)
    case PosReply(status, text, json) =>
      if !Client.Ok(status) then
        Invalid("POS test failed (" + Numbers.IntToString(status) + "): " + Client.Truncate(text, ERROR_BODY_LIMIT))
      else if json.None? then Invalid(INVALID_JSON)
      else if CarriesError(json.value) then Invalid("POS API error: " + Json.ToJsString(json.value.fields["error"]))
      else Valid
  }

  /**
   * `validatePOSCredentials` with a `null` body read like any body without an
   * `error`: incomplete credentials are refused without a request, otherwise the
   * signed test URL is fetched once and the reply judged.
   */
  function Validate(c: Credentials, now: string, sign: (string, string) -> string,
                    fetch: string -> PosReply): (out: Checked)
    ensures !Complete(c) ==> out == Checked(Invalid(MISSING_CREDENTIALS), None)
    ensures Complete(c) ==> out.url == Some(SignedUrl(c, now, sign))
    ensures out.result.Valid? <==>
      Complete(c) && var reply := fetch(SignedUrl(c, now, sign));
        reply.PosReply? && Client.Ok(reply.status) && reply.json.Some? && !CarriesError(reply.json.value)
  {
    if !Complete(c) then Checked(Invalid(MISSING_CREDENTIALS), None)
    else
      var url := SignedUrl(c, now, sign);
      Checked(Judge(fetch(url)), Some(url))
  }

  /** `appId` is carried but never read: it cannot change the verdict or the request. */
  lemma AppIdIgnored(c: Credentials, appId: Option<int>, now: string, sign: (string, string) -> string,
                     fetch: string -> PosReply)
    ensures Validate(c.(appId := appId), now, sign, fetch) == Validate(c, now, sign, fetch)
  {
  }

  /** The code as written: `json.error` on a `null` body throws a `TypeError`. */
  function ValidateAsWritten(c: Credentials, now: string, sign: (string, string) -> string,
                             fetch: string -> PosReply): (out: Outcome)
    ensures out.Threw? <==>
      Complete(c) && var reply := fetch(SignedUrl(c, now, sign));
        reply.PosReply? && Client.Ok(reply.status) && reply.json == Some(Json.Null)
  {
    if !Complete(c) then Returned(Checked(Invalid(MISSING_CREDENTIALS), None))
    else
      var url := SignedUrl(c, now, sign);
      var reply := fetch(url);
      if reply.PosReply? && Client.Ok(reply.status) && reply.json == Some(Json.Null) then Threw(NULL_ERROR_READ)
      else Returned(Checked(Judge(reply), Some(url)))
  }

  /** Apart from a `null` body on an ok reply, the code as written and `Validate` agree. */
  lemma AsWrittenAgreesElsewhere(c: Credentials, now: string, sign: (string, string) -> string,
                                 fetch: string -> PosReply)
    requires !(Complete(c) && var reply := fetch(SignedUrl(c, now, sign));
               reply.PosReply? && Client.Ok(reply.status) && reply.json == Some(Json.Null))
    ensures ValidateAsWritten(c, now, sign, fetch) == Returned(Validate(c, now, sign, fetch))
  {
  }

  /** Complete credentials and a 200 reply whose body is `null`: the code as written throws instead of answering. */
  lemma NullBodyThrows()
    ensures var c := Credentials("pos.example", "key", "secret", None);
      ValidateAsWritten(c, "2024-01-01T00:00:00.000Z", (m, k) => "sig", url => PosReply(200, "null", Some(Json.Null)))
        == Threw(NULL_ERROR_READ)
  {
  }

  /** With the same inputs, the corrected validator answers: a `null` body is valid like `{}`. */
  lemma NullBodyIsJudged(c: Credentials, now: string, sign: (string, string) -> string, fetch: string -> PosReply)
    requires Complete(c)
    requires fetch(SignedUrl(c, now, sign)) == PosReply(200, "null", Some(Json.Null))
    ensures Validate(c, now, sign, fetch).result == Valid
    ensures ValidateAsWritten(c, now, sign, fetch).Threw?
  {
  }
}
