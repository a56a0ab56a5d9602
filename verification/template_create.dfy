/**
 * `POST /api/template/create`: after the shared-secret check and the Documenso
 * API key lookup, reads a multipart form holding a PDF `file`, an optional
 * `name` and an optional `expiresIn`, creates a template from the PDF, mints a
 * presign token scoped to the new template, and answers with its edit link.
 */
module TemplateCreateRoute {
  import opened Wrappers
  import Strings
  import Numbers
  import Gateway
  import Client = DocumensoClient

  const MISSING_API_KEY := "Missing Documenso API key. Pass via X-Documenso-API-Key header or apiKey query param"
  const INVALID_FORM := "Invalid form data"
  const MISSING_FILE := "Missing or invalid file. Send a PDF via multipart/form-data with key \"file\""
  const NOT_A_PDF := "File must be a PDF (application/pdf)"
  const PDF_MIME_TYPE := "application/pdf"
  const PDF_EXTENSION := ".pdf"
  const SCOPE_PREFIX := "templateId:"
  const MIN_EXPIRES_IN := 5
  const MAX_EXPIRES_IN := 10080

  /** A multipart form entry: a text field or an uploaded file. */
  datatype FormEntry = Text(text: string) | Upload(file: Client.File)

  /**
   * The template title: the trimmed `name` field when it is non-blank text,
   * otherwise the file name without a trailing `.pdf`.
   */
  function Title(name: Option<FormEntry>, fileName: string): (title: string)
    ensures name.Some? && name.value.Text? && Strings.Trim(name.value.text) != "" ==>
      title == Strings.Trim(name.value.text)
    ensures !(name.Some? && name.value.Text? && Strings.Trim(name.value.text) != "") ==>
      if Strings.EndsWith(fileName, PDF_EXTENSION) then title + PDF_EXTENSION == fileName else title == fileName
  {
    if name.Some? && name.value.Text? && Strings.Trim(name.value.text) != "" then Strings.Trim(name.value.text)
    else if Strings.EndsWith(fileName, PDF_EXTENSION) then
      assert fileName == fileName[..|fileName| - 4] + fileName[|fileName| - 4..];
      fileName[..|fileName| - 4]
    else fileName
  }

  /**
   * The link lifetime: a non-blank `expiresIn` text is read with `Number`,
   * 0 and NaN become 60, and the result is clamped to [5, 10080]; anything
   * else is 60.
   */
  function ExpiresIn(entry: Option<FormEntry>): (minutes: int)
    ensures MIN_EXPIRES_IN <= minutes <= MAX_EXPIRES_IN
    ensures entry.Some? && entry.value.Text? && Numbers.ParseNumber(entry.value.text).Some? ==>
      var n := Numbers.ParseNumber(entry.value.text).value;
      minutes == (if n == 0 then Client.DEFAULT_EXPIRES_IN
                  else if n < MIN_EXPIRES_IN then MIN_EXPIRES_IN
                  else if n > MAX_EXPIRES_IN then MAX_EXPIRES_IN
                  else n)
    ensures !(entry.Some? && entry.value.Text? && Numbers.ParseNumber(entry.value.text).Some?) ==>
      minutes == Client.DEFAULT_EXPIRES_IN
  {
    if entry.Some? && entry.value.Text? && Strings.Trim(entry.value.text) != "" then
      var n := Numbers.NumberOr(Some(entry.value.text), Client.DEFAULT_EXPIRES_IN);
      if n < MIN_EXPIRES_IN then MIN_EXPIRES_IN else if n > MAX_EXPIRES_IN then MAX_EXPIRES_IN else n
    else Client.DEFAULT_EXPIRES_IN
  }

  /** The presign scope naming the created template. */
  function Scope(templateId: int): string {
    SCOPE_PREFIX + Numbers.IntToString(templateId)
  }

  /** The template id a scope names, if it has the `templateId:` form. */
  function ScopedTemplateId(scope: string): Option<int> {
    if Strings.StartsWith(scope, SCOPE_PREFIX) then Numbers.ParseInt(scope[|SCOPE_PREFIX|..]) else None
  }

  /** The scope names exactly the created template. */
  lemma ScopeNamesTemplate(templateId: int)
    ensures ScopedTemplateId(Scope(templateId)) == Some(templateId)
  {
    var s := Scope(templateId);
    assert s[..|SCOPE_PREFIX|] == SCOPE_PREFIX;
    assert s[|SCOPE_PREFIX|..] == Numbers.IntToString(templateId);
    Numbers.ParseIntToString(templateId);
  }

  /** Uploads the PDF, mints the scoped presign token and builds the edit link. */
  function CreateAndLink(env: Gateway.Env, apiKey: string, title: string, file: Client.File, minutes: int,
                   create: Client.HttpRequest -> Client.Reply<Client.CreatedTemplate>,
                   presign: Client.HttpRequest -> Client.Reply<Client.PresignToken>): (out: Gateway.Handled)
    ensures out.response.status in {200, 502}
    ensures |out.calls| <= 2 && forall i :: 0 <= i < |out.calls| ==> out.calls[i].Fetch?
    // A failed upload is answered 502 with its message, and no token is minted.
    ensures var created := Client.CreateTemplate(env.client, apiKey, title, file, create).result;
      created.Failure? ==>
        && out.response == Gateway.UpstreamError(created.error)
        && |out.calls| == (if Client.BaseUrl(env.client).Success? then 1 else 0)
        && forall i :: 0 <= i < |out.calls| ==> out.calls[i].request.payload.TemplateUpload?
    // After an upload, a failed presign is answered 502 with its message and a minted token 200.
    ensures var created := Client.CreateTemplate(env.client, apiKey, title, file, create).result;
      created.Success? ==>
        var token := Client.CreatePresignToken(env.client, apiKey, Some(minutes), Some(Scope(created.value.id)),
                                               presign).result;
        && (token.Failure? ==> out.response == Gateway.UpstreamError(token.error))
        && (token.Success? ==> out.response.status == 200)
    ensures out.response.status == 200 ==>
      && var created := Client.CreateTemplate(env.client, apiKey, title, file, create).result;
      && created.Success?
      && var token := Client.CreatePresignToken(env.client, apiKey, Some(minutes), Some(Scope(created.value.id)),
                                                presign).result;
      && token.Success?
      && |out.calls| == 2
      && out.calls[0].request.payload == Client.TemplateUpload(title, file)
      && out.calls[1].request.payload == Client.PresignPayload(minutes, Some(Scope(created.value.id)))
      && out.response.body == Gateway.AuthoringBody(
           created.value.id,
           Client.EditAuthoringLink(env.client, created.value.id, token.value.token).value,
           token.value.expiresAt, token.value.expiresIn)
  {
    var created := Client.CreateTemplate(env.client, apiKey, title, file, create);
    match created.result
    case Failure(e) => Gateway.Handled(Gateway.UpstreamError(e), Gateway.Trace(created))
    case Success(template) =>
      var token := Client.CreatePresignToken(env.client, apiKey, Some(minutes), Some(Scope(template.id)), presign);
      var calls := Gateway.Trace(created) + Gateway.Trace(token);
      match token.result
      case Failure(e) => Gateway.Handled(Gateway.UpstreamError(e), calls)
      case Success(t) =>
        match Client.EditAuthoringLink(env.client, template.id, t.token)
        case Failure(e) => Gateway.Handled(Gateway.UpstreamError(e), calls)
        case Success(link) =>
          Gateway.Handled(Gateway.Response(200, Gateway.AuthoringBody(template.id, link, t.expiresAt, t.expiresIn)),
                          calls)
  }

  /** `POST /api/template/create`; `form` is `None` when the body is not multipart form data. */
  function Post(env: Gateway.Env, h: Gateway.Headers, query: map<string, string>,
                form: Option<map<string, FormEntry>>,
                create: Client.HttpRequest -> Client.Reply<Client.CreatedTemplate>,
                presign: Client.HttpRequest -> Client.Reply<Client.PresignToken>): (out: Gateway.Handled)
    ensures Gateway.Guard(env, h).Some? ==> out == Gateway.Handled(Gateway.Guard(env, h).value, [])
    // Every refusal before the upload calls nothing downstream.
    ensures Gateway.Guard(env, h).None? && Gateway.DocumensoApiKey(h, query).None? ==>
      out == Gateway.Handled(Gateway.Error(400, MISSING_API_KEY, Gateway.INVALID_REQUEST), [])
    ensures out.response.status == 400 ==> out.calls == [] && out.response.body.ErrorBody? && out.response.body.code == Some(Gateway.INVALID_REQUEST)
    // The form must parse and hold a `file` upload.
    ensures Gateway.Guard(env, h).None? && Gateway.DocumensoApiKey(h, query).Some? && form.None? ==>
      out == Gateway.Handled(Gateway.Error(400, INVALID_FORM, Gateway.INVALID_REQUEST), [])
    ensures Gateway.Guard(env, h).None? && Gateway.DocumensoApiKey(h, query).Some? && form.Some? &&
            ("file" !in form.value || !form.value["file"].Upload?) ==>
      out == Gateway.Handled(Gateway.Error(400, MISSING_FILE, Gateway.INVALID_REQUEST), [])
    // A PDF file is required.
    ensures out.calls != [] ==>
      && form.Some? && "file" in form.value && form.value["file"].Upload?
      && form.value["file"].file.mimeType == PDF_MIME_TYPE
    ensures Gateway.Guard(env, h).None? && Gateway.DocumensoApiKey(h, query).Some? && form.Some? &&
            "file" in form.value && form.value["file"].Upload? ==>
      var file := form.value["file"].file;
      var name := if "name" in form.value then Some(form.value["name"]) else None;
      var expiresIn := if "expiresIn" in form.value then Some(form.value["expiresIn"]) else None;
      if file.mimeType != PDF_MIME_TYPE
      then out == Gateway.Handled(Gateway.Error(400, NOT_A_PDF, Gateway.INVALID_REQUEST), [])
      else out == CreateAndLink(env, Gateway.DocumensoApiKey(h, query).value, Title(name, file.name), file,
                          ExpiresIn(expiresIn), create, presign)
  {
    match Gateway.Guard(env, h)
    case Some(refused) => Gateway.Handled(refused, [])
    case None =>
      match Gateway.DocumensoApiKey(h, query)
      case None => Gateway.Handled(Gateway.Error(400, MISSING_API_KEY, Gateway.INVALID_REQUEST), [])
      case Some(apiKey) =>
        match form
        case None => Gateway.Handled(Gateway.Error(400, INVALID_FORM, Gateway.INVALID_REQUEST), [])
        case Some(fields) =>
          if "file" !in fields || !fields["file"].Upload? then
            Gateway.Handled(Gateway.Error(400, MISSING_FILE, Gateway.INVALID_REQUEST), [])
          else
            var file := fields["file"].file;
            if file.mimeType != PDF_MIME_TYPE then
              Gateway.Handled(Gateway.Error(400, NOT_A_PDF, Gateway.INVALID_REQUEST), [])
            else
              var name := if "name" in fields then Some(fields["name"]) else None;
              var expiresIn := if "expiresIn" in fields then Some(fields["expiresIn"]) else None;
              CreateAndLink(env, apiKey, Title(name, file.name), file, ExpiresIn(expiresIn), create, presign)
  }

  /**
   * A successful answer's edit link hands back the created template's id and the
   * presign token, and that token was requested for exactly that template.
   */
  lemma CreatedLinkNamesTemplate(env: Gateway.Env, apiKey: string, title: string, file: Client.File, minutes: int,
                                 create: Client.HttpRequest -> Client.Reply<Client.CreatedTemplate>,
                                 presign: Client.HttpRequest -> Client.Reply<Client.PresignToken>)
    requires CreateAndLink(env, apiKey, title, file, minutes, create, presign).response.status == 200
    ensures var out := CreateAndLink(env, apiKey, title, file, minutes, create, presign);
      && Client.BaseUrl(env.client).Success?
      && var body := out.response.body;
         var parts := Client.PartsOfEditLink(Client.BaseUrl(env.client).value, body.authoringLink);
         && parts.Some? && parts.value.0 == body.id
         && ScopedTemplateId(out.calls[1].request.payload.scope.value) == Some(body.id)
  {
    var created := Client.CreateTemplate(env.client, apiKey, title, file, create).result.value;
    var token := Client.CreatePresignToken(env.client, apiKey, Some(minutes), Some(Scope(created.id)), presign)
      .result.value;
    Client.EditLinkCarriesIdAndToken(env.client, created.id, token.token);
    ScopeNamesTemplate(created.id);
  }

  /** `OPTIONS /api/template/create`. */
  function Options(): Gateway.Response {
    Gateway.Preflight()
  }
}
