/**
 * What the two copies of "create an envelope from a template" share: the
 * records they read and write, the error codes they raise, the template-id
 * parser, the searches for the signer and for the bound recipient, and the
 * services they call, which are parameters of the model.
 */
module Envelope {
  import opened Wrappers
  import Strings
  import Numbers
  import Json

  const UNAUTHORIZED := "UNAUTHORIZED"
  const LIMIT_EXCEEDED := "LIMIT_EXCEEDED"
  const INVALID_BODY := "INVALID_BODY"
  const DOCUMENT_SEND_FAILED := "DOCUMENT_SEND_FAILED"
  const UNKNOWN_ERROR := "UNKNOWN_ERROR"

  const USER_DISABLED := "User is disabled"
  const NO_TEAM := "API token must be associated with a team"
  const LIMIT_REACHED := "You have reached your document limit."
  const INVALID_TEMPLATE_ID := "Invalid template ID. Use the id from the templates list (e.g. 1)."
  const NO_SIGNER := "Template must have at least one signer recipient."
  const SEND_FAILED := "Failed to send document to recipient."
  const RECIPIENT_MISSING := "Recipient not found after document creation."

  datatype AppError = AppError(code: string, message: string)

  datatype Role = Signer | Viewer | Approver | Cc | Assistant

  datatype TemplateRecipient = TemplateRecipient(id: int, email: string, role: Role)

  datatype Template = Template(id: int, recipients: seq<TemplateRecipient>)

  datatype DocumentRecipient = DocumentRecipient(id: int, email: string, token: string)

  datatype Document = Document(id: string, recipients: seq<DocumentRecipient>)

  datatype User = User(id: int, name: Option<string>, disabled: bool)

  datatype Team = Team(id: int, name: Option<string>)

  datatype ApiToken = ApiToken(user: User, team: Option<Team>)

  /** The caller's request, after schema validation. */
  datatype Input = Input(
    templateEnvelopeId: string,
    recipientEmail: string,
    recipientName: Option<string>,
    title: Option<string>,
    prefillFields: Option<seq<Json.Value>>)

  datatype Output = Output(envelopeId: string, signingUrl: string, signingToken: string)

  /** The recipient bound in the new document: the template's signer slot filled with the caller's details. */
  datatype Binding = Binding(id: int, email: string, name: string)

  datatype CreateArgs = CreateArgs(
    templateId: int,
    userId: int,
    teamId: int,
    recipients: seq<Binding>,
    titleOverride: Option<string>,
    prefillFields: Option<seq<Json.Value>>)

  /** `sendEmail` is `None` when the caller leaves it to the default. */
  datatype SendArgs = SendArgs(envelopeId: string, userId: int, teamId: int, sendEmail: Option<bool>)

  /** A downstream call, as recorded in a run's trace. */
  datatype Step =
    | LookupToken(token: string)
    | GetLimits(userId: int, teamId: int)
    | GetTemplate(templateId: int, userId: int, teamId: int)
    | CreateDocument(args: CreateArgs)
    | SendDocument(send: SendArgs)

  /**
   * The services the orchestration calls. Lookups that throw in the source
   * return `Failure`; `send` answers whether the document was distributed.
   */
  datatype Services = Services(
    lookupToken: string -> Result<ApiToken, AppError>,
    remainingDocuments: (int, int) -> int,
    getTemplate: (int, int, int) -> Result<Template, AppError>,
    createDocument: CreateArgs -> Result<Document, AppError>,
    send: SendArgs -> bool,
    signingLink: string -> string)

  datatype Run = Run(result: Result<Output, AppError>, steps: seq<Step>)

  /** `parseTemplateIdInput`: the trimmed value read as a positive integer, else `INVALID_BODY`. */
  function ParseTemplateId(value: string): (r: Result<int, AppError>)
    ensures r.Success? <==> var n := Numbers.ParseNumber(Strings.Trim(value)); n.Some? && n.value > 0
    ensures r.Success? ==> Numbers.ParseNumber(Strings.Trim(value)) == Some(r.value) && r.value > 0
    ensures r.Failure? ==> r.error == AppError(INVALID_BODY, INVALID_TEMPLATE_ID)
  {
    match Numbers.ParseNumber(Strings.Trim(value))
    case Some(n) => if n > 0 then Success(n) else Failure(AppError(INVALID_BODY, INVALID_TEMPLATE_ID))
    case None => Failure(AppError(INVALID_BODY, INVALID_TEMPLATE_ID))
  }

  /** Every positive id, as the templates list prints it, parses back to itself. */
  lemma ParseTemplateIdOfPrinted(id: int)
    requires id > 0
    ensures ParseTemplateId(Numbers.IntToString(id)) == Success(id)
  {
    Numbers.IntToStringPlain(id);
    Strings.TrimNoSpace(Numbers.IntToString(id));
    Numbers.ParseNumberOfString(id);
  }

  /** The position of the first element satisfying `p`. */
  function FindIndex<T>(s: seq<T>, p: T -> bool): (r: Option<nat>)
    ensures r.Some? ==> r.value < |s| && p(s[r.value]) && forall j :: 0 <= j < r.value ==> !p(s[j])
    ensures r.None? ==> forall j :: 0 <= j < |s| ==> !p(s[j])
  {
    if |s| == 0 then None
    else if p(s[0]) then Some(0)
    else match FindIndex(s[1..], p)
      case None => None
      case Some(i) => Some(i + 1)
  }

  /** `find`: the first element satisfying `p`. */
  function FindFirst<T>(s: seq<T>, p: T -> bool): (r: Option<T>)
    ensures r.Some? <==> exists i :: 0 <= i < |s| && p(s[i])
    ensures r.Some? ==> exists i :: 0 <= i < |s| && s[i] == r.value && p(s[i]) && forall j :: 0 <= j < i ==> !p(s[j])
  {
    match FindIndex(s, p)
    case None => None
    case Some(i) => Some(s[i])
  }

  /** The first template recipient with role `SIGNER`. */
  function FirstSigner(recipients: seq<TemplateRecipient>): (r: Option<TemplateRecipient>)
    ensures r.Some? <==> exists i :: 0 <= i < |recipients| && recipients[i].role == Signer
    ensures r.Some? ==>
      exists i :: 0 <= i < |recipients| && recipients[i] == r.value && r.value.role == Signer
        && forall j :: 0 <= j < i ==> recipients[j].role != Signer
  {
    FindFirst(recipients, (t: TemplateRecipient) => t.role == Signer)
  }

  /** The first document recipient whose email equals `email` exactly. */
  function RecipientByEmail(recipients: seq<DocumentRecipient>, email: string): (r: Option<DocumentRecipient>)
    ensures r.Some? <==> exists i :: 0 <= i < |recipients| && recipients[i].email == email
    ensures r.Some? ==>
      exists i :: 0 <= i < |recipients| && recipients[i] == r.value && r.value.email == email
        && forall j :: 0 <= j < i ==> recipients[j].email != email
  {
    FindFirst(recipients, (d: DocumentRecipient) => d.email == email)
  }

  /** The single recipient bound in the new document: the signer's slot, the caller's email, the name or `''`. */
  function BindSigner(signer: TemplateRecipient, input: Input): Binding {
    Binding(signer.id, input.recipientEmail, input.recipientName.GetOr(""))
  }

  /** `title ? { title } : undefined`: an override only for a non-empty title. */
  function TitleOverride(title: Option<string>): (r: Option<string>)
    ensures r.Some? <==> title.Some? && title.value != ""
    ensures r.Some? ==> r == title
  {
    if title.Some? && title.value != "" then title else None
  }

  /** The result for the created document: the matching recipient's token and its signing link. */
  function BuildOutput(document: Document, input: Input, signingLink: string -> string): (r: Result<Output, AppError>)
    ensures r.Failure? <==> RecipientByEmail(document.recipients, input.recipientEmail).None?
    ensures r.Failure? ==> r.error == AppError(UNKNOWN_ERROR, RECIPIENT_MISSING)
    ensures r.Success? ==>
      var found := RecipientByEmail(document.recipients, input.recipientEmail).value;
      r.value == Output(document.id, signingLink(found.token), found.token)
  {
    match RecipientByEmail(document.recipients, input.recipientEmail)
    case None => Failure(AppError(UNKNOWN_ERROR, RECIPIENT_MISSING))
    case Some(found) => Success(Output(document.id, signingLink(found.token), found.token))
  }

  /** The arguments of the create call once a signer was found. */
  function CreateArgsFor(templateId: int, user: User, teamId: int, signer: TemplateRecipient, input: Input): CreateArgs {
    CreateArgs(templateId, user.id, teamId, [BindSigner(signer, input)], TitleOverride(input.title), input.prefillFields)
  }

  /** Every send recorded in `steps` was requested with `sendEmail`. */
  predicate SendsWith(steps: seq<Step>, sendEmail: Option<bool>) {
    forall i :: 0 <= i < |steps| && steps[i].SendDocument? ==> steps[i].send.sendEmail == sendEmail
  }

  /** Creates the document, distributes it with the given `sendEmail`, and reads back the bound recipient. */
  function CreateAndSend(args: CreateArgs, user: User, teamId: int, input: Input, s: Services, before: seq<Step>,
                         sendEmail: Option<bool>): (run: Run)
    ensures |run.steps| >= |before| + 1 && run.steps[..|before|] == before
    ensures run.steps[|before|] == CreateDocument(args)
    ensures SendsWith(before, sendEmail) ==> SendsWith(run.steps, sendEmail)
    ensures s.createDocument(args).Failure? ==>
      run == Run(Failure(s.createDocument(args).error), before + [CreateDocument(args)])
    ensures s.createDocument(args).Success? ==>
      var document := s.createDocument(args).value;
      var send := SendArgs(document.id, user.id, teamId, sendEmail);
      && run.steps == before + [CreateDocument(args), SendDocument(send)]
      && run.result == (if s.send(send) then BuildOutput(document, input, s.signingLink)
                        else Failure(AppError(DOCUMENT_SEND_FAILED, SEND_FAILED)))
  {
    var steps := before + [CreateDocument(args)];
    match s.createDocument(args)
    case Failure(e) => Run(Failure(e), steps)
    case Success(document) =>
      var send := SendArgs(document.id, user.id, teamId, sendEmail);
      if !s.send(send) then Run(Failure(AppError(DOCUMENT_SEND_FAILED, SEND_FAILED)), steps + [SendDocument(send)])
      else Run(BuildOutput(document, input, s.signingLink), steps + [SendDocument(send)])
  }

  /** Fetches the template, picks its first signer, then creates and sends. */
  function WithTemplate(templateId: int, user: User, teamId: int, input: Input, s: Services,
                        sendEmail: Option<bool>): (run: Run)
    ensures |run.steps| >= 2
    ensures run.steps[..2] == [GetLimits(user.id, teamId), GetTemplate(templateId, user.id, teamId)]
    ensures SendsWith(run.steps, sendEmail)
    ensures var template := s.getTemplate(templateId, user.id, teamId);
      var looked := [GetLimits(user.id, teamId), GetTemplate(templateId, user.id, teamId)];
      && (template.Failure? ==> run == Run(Failure(template.error), looked))
      && (template.Success? && FirstSigner(template.value.recipients).None? ==>
            run == Run(Failure(AppError(INVALID_BODY, NO_SIGNER)), looked))
      && (template.Success? && FirstSigner(template.value.recipients).Some? ==>
            var signer := FirstSigner(template.value.recipients).value;
            run == CreateAndSend(CreateArgsFor(templateId, user, teamId, signer, input), user, teamId, input, s, looked, sendEmail))
  {
    var looked := [GetLimits(user.id, teamId), GetTemplate(templateId, user.id, teamId)];
    match s.getTemplate(templateId, user.id, teamId)
    case Failure(e) => Run(Failure(e), looked)
    case Success(template) =>
      match FirstSigner(template.recipients)
      case None => Run(Failure(AppError(INVALID_BODY, NO_SIGNER)), looked)
      case Some(signer) =>
        CreateAndSend(CreateArgsFor(templateId, user, teamId, signer, input), user, teamId, input, s, looked, sendEmail)
  }

  /** Everything after the token checks: limits, template id, template, signer, then create and send. */
  function Proceed(user: User, teamId: int, input: Input, s: Services, sendEmail: Option<bool>): (run: Run)
    ensures |run.steps| >= 1 && run.steps[0] == GetLimits(user.id, teamId)
    ensures SendsWith(run.steps, sendEmail)
    // The limit is checked before the template id is even parsed.
    ensures s.remainingDocuments(user.id, teamId) <= 0 ==>
      run == Run(Failure(AppError(LIMIT_EXCEEDED, LIMIT_REACHED)), [GetLimits(user.id, teamId)])
    ensures s.remainingDocuments(user.id, teamId) > 0 && ParseTemplateId(input.templateEnvelopeId).Failure? ==>
      run == Run(Failure(AppError(INVALID_BODY, INVALID_TEMPLATE_ID)), [GetLimits(user.id, teamId)])
    ensures s.remainingDocuments(user.id, teamId) > 0 && ParseTemplateId(input.templateEnvelopeId).Success? ==>
      run == WithTemplate(ParseTemplateId(input.templateEnvelopeId).value, user, teamId, input, s, sendEmail)
  {
    if s.remainingDocuments(user.id, teamId) <= 0 then
      Run(Failure(AppError(LIMIT_EXCEEDED, LIMIT_REACHED)), [GetLimits(user.id, teamId)])
    else match ParseTemplateId(input.templateEnvelopeId)
      case Failure(e) => Run(Failure(e), [GetLimits(user.id, teamId)])
      case Success(templateId) =>
        var run := WithTemplate(templateId, user, teamId, input, s, sendEmail);
        assert run.steps[0] == run.steps[..2][0];
        run
  }

  /** A successful create-and-send called both services and answers for the matching recipient. */
  lemma SuccessfulSend(args: CreateArgs, user: User, teamId: int, input: Input, s: Services, before: seq<Step>,
                       sendEmail: Option<bool>)
    requires CreateAndSend(args, user, teamId, input, s, before, sendEmail).result.Success?
    ensures s.createDocument(args).Success?
    ensures var run := CreateAndSend(args, user, teamId, input, s, before, sendEmail);
      var document := s.createDocument(args).value;
      var send := SendArgs(document.id, user.id, teamId, sendEmail);
      var found := RecipientByEmail(document.recipients, input.recipientEmail);
      && run.steps == before + [CreateDocument(args), SendDocument(send)]
      && s.send(send)
      && found.Some? && found.value.email == input.recipientEmail
      && run.result.value == Output(document.id, s.signingLink(found.value.token), found.value.token)
  {
  }

  /** The path a successful run took: every guard passed and the first signer was bound. */
  predicate PassedGuards(user: User, teamId: int, input: Input, s: Services, templateId: int, signer: TemplateRecipient) {
    && s.remainingDocuments(user.id, teamId) > 0
    && ParseTemplateId(input.templateEnvelopeId) == Success(templateId)
    && s.getTemplate(templateId, user.id, teamId).Success?
    && FirstSigner(s.getTemplate(templateId, user.id, teamId).value.recipients) == Some(signer)
  }

  /**
   * A successful run past the token checks passed every guard, bound exactly one
   * recipient (the first signer's slot, the caller's email, the name or `''`),
   * and then created and sent the document.
   */
  lemma SuccessfulProceed(user: User, teamId: int, input: Input, s: Services, sendEmail: Option<bool>)
    requires Proceed(user, teamId, input, s, sendEmail).result.Success?
    ensures exists templateId, signer ::
      && PassedGuards(user, teamId, input, s, templateId, signer)
      && signer.role == Signer
      && CreateArgsFor(templateId, user, teamId, signer, input).recipients
           == [Binding(signer.id, input.recipientEmail, input.recipientName.GetOr(""))]
      && Proceed(user, teamId, input, s, sendEmail)
           == CreateAndSend(CreateArgsFor(templateId, user, teamId, signer, input), user, teamId, input, s,
                            [GetLimits(user.id, teamId), GetTemplate(templateId, user.id, teamId)], sendEmail)
  {
    var run := Proceed(user, teamId, input, s, sendEmail);
    var templateId := ParseTemplateId(input.templateEnvelopeId).value;
    assert run == WithTemplate(templateId, user, teamId, input, s, sendEmail);
    var signer := FirstSigner(s.getTemplate(templateId, user.id, teamId).value.recipients).value;
    assert PassedGuards(user, teamId, input, s, templateId, signer);
  }
}
