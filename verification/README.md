# Token-exchange gateway and envelope-from-template core, in Dafny

This project models the request-gateway layer of a Documenso-based signing
service together with a few small validators from the main application:

- the token-exchange gateway's routes `POST /api/document-request`,
  `POST /api/template/create` and `GET /api/templates`: the shared-secret
  check (`getAuthHeader`), body and form parsing, the Documenso API key
  lookup, the `expiresIn`/`page`/`perPage` normalisation, the exchange-code
  to HTTP-status table, and the mapping of upstream failures to 502;
- the Documenso client: base-URL selection, the presign/authoring link
  shapes, the templates query, and the way a non-ok reply becomes an error;
- the point-of-sale client: host normalisation, timestamp millisecond
  stripping, the signed test URL, and the classification of the reply; and
  the untyped credential guard in front of it;
- `createEnvelopeFromTemplate` in its two copies (the gateway's, which
  identifies the caller by API token and sends without email, and the tRPC
  mutation's), and the create-envelope request/response schemas;
- the sign-up loader's gate, the organisation-name rule and the
  create-organisation request/response union;
- the two "promote to admin" scripts as transitions on a map from email to
  roles.

Every module is a set of pure functions over immutable datatypes. Anything the
code calls but that is not part of this model (`fetch`, the credential
exchanger, the database services, the HMAC signer, the clock, the invite
lookup, `formatSigningLink`, the `returnTo` helpers, the recipient-email and
prefill-field schemas) is a function-typed parameter. Each handler returns
its response together with the ordered list of downstream calls it made, so
"nothing downstream was called" is a statement about that list.

Layout, one module per file: `wrappers.dfy` (Option/Result),
`strings.dfy` (`trim`, `\s`, ASCII `toLowerCase`, UTF-16 length),
`numbers.dfy` (decimal rendering and `Number()` on decimal text), `json.dfy`,
`uri.dfy` (UTF-8 and percent encoding: `encodeURIComponent` and
`URLSearchParams` serialisation, with decoders), `gateway.dfy`,
`documenso_client.dfy`, `document_request.dfy`, `template_create.dfy`,
`templates_list.dfy`, `pos_client.dfy`, `validate_credentials.dfy`,
`envelope_common.dfy` (the chain both create-envelope copies share),
`server_create_envelope.dfy`, `trpc_create_envelope.dfy`,
`create_envelope_types.dfy`, `signup.dfy`, `organisation.dfy`,
`promote_admin.dfy`.

Two details of the lifetime handling, as the code does them:

- `POST /api/document-request` drops an out-of-range `expiresIn` and uses 60
  instead of clamping it into [5, 10080].
- `POST /api/template/create` reads an `expiresIn` of `"0"` as 60, because
  `Number("0") || 60` is 60.

The two create-envelope copies differ in one observable way: the gateway's
copy calls `sendDocument` with `sendEmail: false`, and the mutation leaves it
unset. Both are modelled by one chain parameterised by that flag, and
`TrpcCreateEnvelope.CopiesAgree` states how the copies relate when the send
service answers the same for both flag values.

## Model

| member | source | states |
|---|---|---|
| Uri.DecodeEncode | apps/token-exchange/lib/documenso-client.ts:89-97 | percent-decoding inverts the `encodeURIComponent` (and form) encoding for every string |
| Uri.EncodeComponentInjective | apps/token-exchange/lib/documenso-client.ts:152 | distinct envelope ids never encode to the same path segment |
| Uri.ParseSerializeQuery | apps/token-exchange/lib/documenso-client.ts:68-72 | a `URLSearchParams` query string parses back to exactly the pairs set, in order |
| Numbers.ParseNumberOfString | apps/token-exchange/lib/server/create-envelope.ts:32-40 | `Number(String(i)) == i` for every integer |
| Strings.TrimIdempotent | apps/token-exchange/lib/pos-client.ts:11 | trimming a trimmed string changes nothing |
| Strings.TrimEmptyIffAllSpace | apps/token-exchange/app/api/template/create/route.ts:114-115 | `!s.trim()` holds exactly when every character is whitespace |
| Gateway.GetAuthHeader | apps/token-exchange/app/api/document-request/route.ts:58-64 | with a `Bearer ` Authorization header the result is its text after the 7-character prefix; otherwise the `X-API-Key` header |
| Gateway.Guard | apps/token-exchange/app/api/document-request/route.ts:67-88 | unset or empty secret gives 500 with no code, before any credential is read; a refused caller gets 401 `UNAUTHORIZED` |
| Gateway.GuardAdmitsExactlyTheSecret | apps/token-exchange/app/api/document-request/route.ts:79-88 | a request passes iff the secret is set and the caller sent it via `Bearer`, or via `X-API-Key` with no Bearer header (a wrong Bearer value is not rescued by a correct `X-API-Key`) |
| Gateway.DocumensoApiKey | apps/token-exchange/app/api/template/create/route.ts:54-68 | the `X-Documenso-API-Key` header wins over the `apiKey` query parameter even when empty; an empty or missing key is `None` |
| Gateway.Preflight | apps/token-exchange/app/api/document-request/route.ts:192-194 | `OPTIONS` answers 204 with no body |
| DocumensoClient.StripTrailingSlash | apps/token-exchange/lib/documenso-client.ts:11 | at most one trailing `/` is removed, exactly when there is one |
| DocumensoClient.BaseUrl | apps/token-exchange/lib/documenso-client.ts:6-12 | `DOCUMENSO_URL` wins over `NEXT_PUBLIC_DOCUMENSO_URL` whenever it is present; an absent or empty chosen value fails with the not-set message |
| DocumensoClient.Truncate | apps/token-exchange/lib/documenso-client.ts:39 | the quoted body is a prefix of the reply text of at most the limit, and is the whole text when shorter |
| DocumensoClient.Interpret | apps/token-exchange/lib/documenso-client.ts:37-43 | success iff the reply is ok and its JSON parsed, yielding that JSON; a non-ok reply fails with a message that starts `Documenso <operation> failed (<status>): ` and then quotes the start of the body: never more than 300 characters of it, exactly 300 when the body is longer, and all of it when shorter |
| DocumensoClient.CreatePresignToken | apps/token-exchange/lib/documenso-client.ts:20-44 | a request is sent iff the base URL resolves, else the not-set failure; it is a POST under the base URL carrying `Bearer <apiKey>`, `expiresIn` as given or 60, and the scope unchanged; the result is that request's reply as `Interpret` reads it |
| DocumensoClient.GetTemplates | apps/token-exchange/lib/documenso-client.ts:63-87 | a request is sent iff the base URL resolves, else the not-set failure; it is a body-less GET of the templates URL for the page options, carrying `Bearer <apiKey>` |
| DocumensoClient.CreateTemplate | apps/token-exchange/lib/documenso-client.ts:122-144 | a request is sent iff the base URL resolves, else the not-set failure; it is a POST to the create-template endpoint carrying `Bearer <apiKey>` and exactly the caller's title and file |
| DocumensoClient.CreateEnvelope | apps/token-exchange/lib/documenso-client.ts:146-170 | a request is sent iff the base URL resolves, else the not-set failure; it is a POST to the URL naming the encoded template envelope id, carrying `Bearer <apiKey>` and exactly the caller's body |
| DocumensoClient.AuthoringLink | apps/token-exchange/lib/documenso-client.ts:89-92 | the link exists exactly when the base URL does |
| DocumensoClient.EditAuthoringLink | apps/token-exchange/lib/documenso-client.ts:94-97 | the link exists exactly when the base URL does |
| DocumensoClient.AuthoringLinkCarriesToken | apps/token-exchange/lib/documenso-client.ts:89-92 | the create link is the create path followed by the token, encoded once: decoding the tail gives back the token |
| DocumensoClient.EditLinkCarriesIdAndToken | apps/token-exchange/lib/documenso-client.ts:94-97 | both the template id and the token can be read back from the edit link |
| DocumensoClient.EnvelopeUrlCarriesTemplateId | apps/token-exchange/lib/documenso-client.ts:152 | the template envelope id can be read back from the create-envelope URL, whatever characters it holds |
| DocumensoClient.TemplatesUrlQuery | apps/token-exchange/lib/documenso-client.ts:68-72 | a `?query` is appended iff `page` or `perPage` is truthy, and it parses back to exactly the truthy parameters |
| DocumentRequestRoute.RecipientEmail | apps/token-exchange/app/api/document-request/route.ts:34-39 | the email is kept, trimmed and lower-cased, iff it is a string whose normalised form is local@domain.tld-shaped |
| DocumentRequestRoute.ParseBody | apps/token-exchange/app/api/document-request/route.ts:7-56 | `None` iff the body is not a non-array object; `apiKey` kept iff a non-blank string (trimmed); `expiresIn` kept iff a number in [5, 10080]; the exchange request exists iff `credentials` is a record and `slug`, `organisationId` are strings |
| DocumentRequestRoute.ExchangeStatus | apps/token-exchange/app/api/document-request/route.ts:128-136 | `INVALID_CREDENTIALS` gives 401, `ORGANISATION_NOT_FOUND`/`INVALID_SLUG` give 404, `TEAM_URL_TAKEN` gives 409, each iff; every other code gives 400 |
| DocumentRequestRoute.PresignLifetime | apps/token-exchange/app/api/document-request/route.ts:45-47 | the presign lifetime is always in [5, 10080]: the body's value when in range, otherwise 60 (dropped, not clamped) |
| DocumentRequestRoute.Issue | apps/token-exchange/app/api/document-request/route.ts:159-189 | a failed presign answers 502 `DOCUMENSO_API_ERROR` with its message, a minted token answers 200; a 200 follows exactly one presign call with the chosen key and no scope, and returns the create link, expiry and the kept recipient email |
| DocumentRequestRoute.Proceed | apps/token-exchange/app/api/document-request/route.ts:117-157 | an `apiKey` wins and the exchanger is not called; without one and without complete exchange fields the answer is 400 `INVALID_REQUEST` with no call; a failed exchange answers with its code's status and makes no further call |
| DocumentRequestRoute.Post | apps/token-exchange/app/api/document-request/route.ts:66-115 | secret checks, then `INVALID_JSON`, then `INVALID_REQUEST` for a non-record body, all before any downstream call |
| DocumentRequestRoute.PostCallsInOrder | apps/token-exchange/app/api/document-request/route.ts:117-176 | the exchanger is called at most once, first, and only for a parsed body without `apiKey`; every 200 ends with a presign call whose lifetime is in [5, 10080] and which has no scope |
| TemplateCreateRoute.Title | apps/token-exchange/app/api/template/create/route.ts:113-119 | a non-blank `name` is used trimmed; otherwise the file name with one trailing `.pdf` removed, or unchanged if it has none |
| TemplateCreateRoute.ExpiresIn | apps/token-exchange/app/api/template/create/route.ts:125-129 | always in [5, 10080]; a parsed non-zero value is clamped; 0, NaN, blank, missing or a non-text entry give 60 |
| TemplateCreateRoute.ScopeNamesTemplate | apps/token-exchange/app/api/template/create/route.ts:138-141 | the scope `templateId:<id>` names exactly the created template |
| TemplateCreateRoute.CreateAndLink | apps/token-exchange/app/api/template/create/route.ts:135-171 | a failed upload answers 502 `DOCUMENSO_API_ERROR` with its message and mints no token; after an upload, a failed presign answers 502 with its message and a minted token 200; a 200 made the upload then the presign scoped to the new id, and returns that id with the edit link |
| TemplateCreateRoute.Post | apps/token-exchange/app/api/template/create/route.ts:30-111 | secret checks first; a form that does not parse answers 400 "Invalid form data", and a missing or non-file `file` answers 400 "Missing or invalid file", both `INVALID_REQUEST` with no downstream call; a non-PDF file answers 400 before any upload; otherwise the upload-and-link flow runs with the title and lifetime read from the form |
| TemplateCreateRoute.CreatedLinkNamesTemplate | apps/token-exchange/app/api/template/create/route.ts:138-142 | in a successful answer, the edit link and the presign scope both name the returned template id |
| TemplatesListRoute.Page | apps/token-exchange/app/api/templates/route.ts:61 | `page >= 1`; the parsed value when it is at least 1; otherwise 1 |
| TemplatesListRoute.PerPage | apps/token-exchange/app/api/templates/route.ts:62 | `perPage` in [1, 100]; a parsed non-zero value clamped; 10 when missing, zero or unparsable |
| TemplatesListRoute.Get | apps/token-exchange/app/api/templates/route.ts:21-86 | secret checks, then the API key, before any call; the upstream page is passed through verbatim at 200 and any failure is 502 `DOCUMENSO_API_ERROR` |
| TemplatesListRoute.ListingRequestsBothParameters | apps/token-exchange/app/api/templates/route.ts:61-65 | the upstream request always carries `page` then `perPage`, with the normalised values |
| PosClient.NormalizeHost | apps/token-exchange/lib/pos-client.ts:10-16 | the result always has an http(s) scheme: the trimmed host when it had one, otherwise `https://` + the trimmed host |
| PosClient.NormalizeHostIdempotent | apps/token-exchange/lib/pos-client.ts:10-16 | normalising a normalised host changes nothing |
| PosClient.StripMillisOfIso | apps/token-exchange/lib/pos-client.ts:18-20 | an ISO stamp ending `.ddd` then `Z` loses exactly its milliseconds |
| PosClient.StripMillis | apps/token-exchange/lib/pos-client.ts:18-20 | the text is unchanged iff it does not end in `.ddd` then `Z`; otherwise exactly those four characters before the `Z` are removed |
| PosClient.TestUrlCarriesParameters | apps/token-exchange/lib/pos-client.ts:42-53 | the test URL is the host (one trailing `/` removed) + `/apps/any/test?`, and its query parses back to `accesskey`, `timestamp`, `signature` in that order |
| PosClient.Judge | apps/token-exchange/lib/pos-client.ts:57-88 | a reply is valid iff it arrived, is ok, parsed as JSON and carries no truthy `error` |
| PosClient.Validate | apps/token-exchange/lib/pos-client.ts:33-89 | incomplete credentials are invalid with no request; otherwise exactly the signed URL is requested and the verdict is valid iff the reply is ok, JSON and free of a truthy `error` |
| PosClient.AppIdIgnored | apps/token-exchange/lib/pos-client.ts:36 | `appId` changes neither the request nor the verdict |
| PosClient.ValidateAsWritten | apps/token-exchange/lib/pos-client.ts:76-88 | the code as written throws iff the credentials are complete and the ok reply's body is JSON `null` |
| PosClient.AsWrittenAgreesElsewhere | apps/token-exchange/lib/pos-client.ts:76-88 | on every other input the code as written returns what `Validate` returns |
| PosClient.NullBodyThrows | apps/token-exchange/lib/pos-client.ts:84 | a concrete request whose 200 reply is `null` makes the code as written throw |
| PosClient.NullBodyIsJudged | apps/token-exchange/lib/pos-client.ts:84-88 | with a `null` body the corrected validator answers valid |
| ValidateCredentials.ToCredentials | apps/token-exchange/lib/validate-credentials.ts:24-29 | host, accessKey and secretKey are forwarded unchanged; `appId` is forwarded iff it is a number |
| ValidateCredentials.Validate | apps/token-exchange/lib/validate-credentials.ts:17-32 | a record without three string fields is refused with no request; otherwise the result is the POS verdict |
| ValidateCredentials.ValidExactly | apps/token-exchange/lib/validate-credentials.ts:4-31 | the result is true iff the three fields are non-empty strings and the signed test request got an ok JSON reply with no truthy `error` |
| Envelope.ParseTemplateId | apps/token-exchange/lib/server/create-envelope.ts:32-40 | succeeds iff the trimmed text is a positive integer, which it returns; otherwise `INVALID_BODY` |
| Envelope.ParseTemplateIdOfPrinted | apps/token-exchange/lib/server/create-envelope.ts:32-40 | every positive id, as printed, is accepted as itself |
| Envelope.FirstSigner | apps/token-exchange/lib/server/create-envelope.ts:91 | the first template recipient with role SIGNER, and `None` iff there is none |
| Envelope.RecipientByEmail | apps/token-exchange/lib/server/create-envelope.ts:143 | the first document recipient whose email matches exactly, and `None` iff there is none |
| Envelope.TitleOverride | apps/token-exchange/lib/server/create-envelope.ts:122 | a title override exists iff the title is present and non-empty |
| Envelope.BuildOutput | apps/token-exchange/lib/server/create-envelope.ts:143-155 | `UNKNOWN_ERROR` iff no recipient matches the email; otherwise that recipient's token and its signing link |
| Envelope.CreateAndSend | apps/token-exchange/lib/server/create-envelope.ts:111-155 | a failed create stops before the send; a refused send is `DOCUMENT_SEND_FAILED`; otherwise the answer is built from the created document |
| Envelope.WithTemplate | apps/token-exchange/lib/server/create-envelope.ts:84-125 | a template lookup failure or a template without a SIGNER (`INVALID_BODY`) stops before the create; otherwise the first signer is bound |
| Envelope.Proceed | apps/token-exchange/lib/server/create-envelope.ts:74-155 | the limit is consulted first and `LIMIT_EXCEEDED` at ≤ 0 stops before the template id is parsed; a bad id is `INVALID_BODY` before any template lookup |
| Envelope.SuccessfulSend | apps/token-exchange/lib/server/create-envelope.ts:127-155 | a success created and sent the document and answers for the recipient whose email matches |
| Envelope.SuccessfulProceed | apps/token-exchange/lib/server/create-envelope.ts:91-125 | a success passed every guard and bound exactly one recipient: the first signer's id, the caller's email, the name or `''` |
| ServerCreateEnvelope.Create | apps/token-exchange/lib/server/create-envelope.ts:42-155 | the token is looked up first; a disabled user, then a token without a team, are `UNAUTHORIZED` before limits are consulted; the send turns email off |
| ServerCreateEnvelope.SuccessfulCreate | apps/token-exchange/lib/server/create-envelope.ts:55-72 | the gateway copy succeeds only for an enabled user whose token is bound to a team |
| TrpcCreateEnvelope.Create | packages/trpc/server/template-router/create-envelope.ts:27-111 | the limit is consulted first; every send leaves `sendEmail` unset; a success made exactly four calls, ending with the send |
| TrpcCreateEnvelope.CopiesAgree | packages/trpc/server/template-router/create-envelope.ts:82-96 | provided the send service answers the same whether email is turned off or left unset, for an enabled user bound to a team the gateway copy answers as the mutation does, with the same calls after the token lookup except that its send turns email off |
| CreateEnvelopeTypes.ParseRequest | packages/trpc/server/template-router/create-envelope.types.ts:19-30 | a non-object is rejected; an object is accepted iff every field rule holds, and the failing fields are reported exactly; an accepted request keeps the email and prefill items as their sub-schemas output them |
| CreateEnvelopeTypes.ParseItems | packages/trpc/server/template-router/create-envelope.types.ts:26-29 | an array is accepted iff every item parses, and then yields each item's parsed output in order |
| CreateEnvelopeTypes.ParsedIsValid | packages/trpc/server/template-router/create-envelope.types.ts:23-29 | when the sub-schemas accept their own outputs unchanged, an accepted request has an email and prefill items those schemas accept as themselves, a name of at most 255 and a title of 1 to 255 (so never empty) |
| CreateEnvelopeTypes.RequestRoundTrip | packages/trpc/server/template-router/create-envelope.types.ts:19-30 | every valid request renders and parses back to itself |
| CreateEnvelopeTypes.ParseResponse | packages/trpc/server/template-router/create-envelope.types.ts:32-36 | a response is accepted iff its three fields are strings |
| CreateEnvelopeTypes.ResponseRoundTrip | packages/trpc/server/template-router/create-envelope.types.ts:32-36 | every output renders and parses back to itself |
| Signup.Data | apps/remix/app/routes/_unauthenticated+/signup.tsx:28-58 | SSO switches pass through; `returnTo` is present iff valid, and then normalised; the invite token is echoed |
| Signup.Loader | apps/remix/app/routes/_unauthenticated+/signup.tsx:22-59 | without the flag exactly `'true'` the page renders with no lookup; gated without a token redirects to `/signin` with no lookup; gated with a token looks it up once and renders iff an undeclined invite exists |
| Signup.RenderedExactly | apps/remix/app/routes/_unauthenticated+/signup.tsx:32-46 | the page renders iff sign-up is open or an undeclined invite is held; every redirect goes to `/signin` |
| Organisation.NameIssues | packages/lib/types/organisation-name.ts:7-10 | no issue iff 3 ≤ length ≤ 50; `Minimum 3 characters` iff shorter, `Maximum 50 characters` iff longer |
| Organisation.NameJudgedByLengthOnly | packages/lib/types/organisation-name.ts:7-10 | two names of equal length are judged alike |
| Organisation.ParseRequest | packages/trpc/server/organisation-router/create-organisation.types.ts:7-10 | accepted iff `name` passes the name rule and `priceId` is absent or a string, both kept; a non-object is refused as a whole |
| Organisation.ParseResponse | packages/trpc/server/organisation-router/create-organisation.types.ts:12-20 | `paymentRequired: false` alone is the free variant; `true` is accepted iff a string `checkoutUrl` is present |
| Organisation.ResponseRoundTrip | packages/trpc/server/organisation-router/create-organisation.types.ts:12-20 | both response variants render and parse back to themselves |
| PromoteAdmin.Promote | scripts/promote-user-to-admin.ts:23-41 | lookup by lower-cased email; unknown user or existing admin leaves the store unchanged; no other user changes; the user keeps their roles and holds ADMIN |
| PromoteAdmin.PromoteIdempotent | scripts/promote-user-to-admin.ts:33-36 | promoting twice is promoting once |
| PromoteAdmin.PromotionAppendsOnce | scripts/promote-user-to-admin.ts:38-41 | a promotion appends exactly one ADMIN after the existing roles |
| PromoteAdmin.CaseInsensitiveLookup | scripts/promote-user-to-admin.ts:23-26 | addresses differing only in letter case promote the same user |
| PromoteAdmin.PromoteUserToAdmin | scripts/promote-user-to-admin.ts:15-51 | no email argument is a usage failure (exit 1) with no store change; otherwise exit 1 iff the user is unknown |
| PromoteAdmin.PromoteAdminScript | scripts/promote-admin.ts:13-49 | no email argument is a usage failure (exit 1) with no store change; otherwise exit 1 iff the user is unknown |
| PromoteAdmin.ScriptsAgree | scripts/promote-admin.ts:20-39 | both scripts make the same change to the user table and reach the same outcome; this follows from modelling both lookups (`findUnique` and `findFirst`) as one read of a map keyed by unique email |

## Left out

- Network I/O, request objects, `cors()` wrapping, response-body reading and the 15-second abort timeout of the point-of-sale request: replies are parameters of each handler and client operation.
- The HMAC-SHA256 signature and its base64 rendering: a `sign(message, key)` parameter.
- The clock: `new Date().toISOString()` is a `now` parameter; only the millisecond stripping is modelled.
- The credential exchanger, the API-token lookup, the server limits, the template lookup, document creation, `sendDocument`, `formatSigningLink`, the invite lookup, `isValidReturnTo`/`normalizeReturnTo`, and the recipient-email and prefill-field schemas are parameters; their own behaviour is not part of this model.
- The request metadata and audit fields passed to document creation and sending, and the logger calls, in both create-envelope copies.
- `POST /api/template/[templateEnvelopeId]/create-envelope` (apps/token-exchange/app/api/template/[templateEnvelopeId]/create-envelope/route.ts) is not part of this model; only the client operation it calls is.
- The database behind the scripts is a map from lower-cased email to roles; console output timing and `process.exit` are reduced to a message and an exit code.
- The sign-up page component, its meta tags and the app footer: rendering only.
- Query strings are a map from each parameter to its first value, and a multipart form is a map from field name to its first entry.
- Throwing a value that is not an `Error` (the `'Unknown error'` branch of each handler): every modelled failure carries a message.
- `encodeURIComponent` throwing on a lone surrogate: Dafny strings hold only scalar values.
- JSON numbers are integers: a fractional `expiresIn` in a document request is not modelled.
- zod's error message texts other than the two organisation-name bounds; a failed request parse reports the failing field names.
- Numbers.ParseNumber: models `Number()` only on blank or signed-decimal text; hexadecimal, exponent, fractional and `Infinity` forms are read as NaN. Decimal text is read as an exact unbounded integer, where `Number()` yields a double: above 2^53 the code rounds (`"9007199254740993"` becomes 9007199254740992), and text too long for a double becomes `Infinity`.
- Envelope.ParseTemplateId: weaker than the code for the same reasons: `"1e3"`, `"0x10"` and `"1.0"` are accepted by the code and refused here; an id above 2^53 is kept exact here where the code rounds it, so two texts the code merges get distinct ids; and text whose value overflows a double is accepted here where the code refuses `Infinity` as not an integer.
- TemplatesListRoute.Page: weaker than the code for fractional and exponent forms, which the code accepts and this model reads as NaN; for hexadecimal, binary and octal text (`"0x10"` is page 16 in the code, 1 here); for the literal `"Infinity"`, which the code sends as `page=Infinity` where this model sends 1; a page above 2^53 is kept exact where the code rounds it, text that overflows a double is a page here where the code gets `Infinity`, and a page of at least 10^21 is sent here in plain digits where `String(page)` writes exponent form (`1e+21`).
- TemplatesListRoute.PerPage: weaker than the code for fractional and exponent forms, which the code accepts and this model reads as NaN; for hexadecimal, binary and octal text (`"0x10"` is 16 in the code, 10 here); and for the literals `"Infinity"` and `"-Infinity"`, which the code clamps to 100 and 1 where this model gives 10.
- TemplateCreateRoute.ExpiresIn: weaker than the code for fractional and exponent forms, which the code accepts and this model reads as NaN; for hexadecimal, binary and octal text (`"0x10"` is 16 minutes in the code, 60 here); and for the literals `"Infinity"` and `"-Infinity"`, which the code clamps to 10080 and 5 where this model gives 60.
- DocumentRequestRoute.RecipientEmail: lower-cases ASCII letters only, where `toLowerCase` maps all of Unicode.
- PromoteAdmin.Promote: lower-cases ASCII letters only, where `toLowerCase` maps all of Unicode.
- DocumensoClient.Truncate: counts characters, where `slice` counts UTF-16 code units; the two differ only for text outside the Basic Multilingual Plane.
- ValidateCredentials.Validate: the argument is typed as a record, so the `!credentials` test of a falsy value is not modelled. It builds on the corrected `PosClient.Validate`: with complete credentials and an ok reply whose body is `null` it answers true, where the code's `await` rejects with the `TypeError` described under Findings.
- ValidateCredentials.ValidExactly: characterises the corrected validator, so on an ok reply whose body is `null` it states the verdict true where the code rejects with a `TypeError` (see Findings).

## Findings

| source | as written | input that shows it | evidently intended | confidence | as-written member | corrected member |
|---|---|---|---|---|---|---|
| apps/token-exchange/lib/pos-client.ts:84 | after `response.json()` succeeds, `json.error` is read without checking that `json` is an object | complete credentials and a 200 reply whose body is `null`: reading `null.error` throws a `TypeError`, so `validatePOSCredentials` rejects instead of answering, although its return type promises a verdict | a `null` body is judged like any body without an `error` field (valid), and the function never throws | medium; not executed | PosClient.ValidateAsWritten | PosClient.Validate |

`PosClient.NullBodyThrows` exhibits the throwing input for the code as
written. `PosClient.NullBodyIsJudged` shows that the corrected validator
answers on the same input, and `PosClient.AsWrittenAgreesElsewhere` shows
that the two agree everywhere else. `ValidateCredentials` builds on the
corrected validator.
