/**
 * The `template.createEnvelope` mutation: the same chain as the gateway's
 * copy, for a user and team already authenticated by the procedure, and with
 * the send left to its default email behaviour.
 */
module TrpcCreateEnvelope {
  import opened Wrappers
  import opened Envelope
  import Server = ServerCreateEnvelope

  /** The mutation for the authenticated `user` acting in team `teamId`. */
  function Create(user: User, teamId: int, input: Input, s: Services): (run: Run)
    ensures |run.steps| >= 1 && run.steps[0] == GetLimits(user.id, teamId)
    ensures s.remainingDocuments(user.id, teamId) <= 0 ==>
      run == Run(Failure(AppError(LIMIT_EXCEEDED, LIMIT_REACHED)), [GetLimits(user.id, teamId)])
    ensures SendsWith(run.steps, None)
    ensures run.result.Success? ==> |run.steps| == 4 && run.steps[3].SendDocument?
  {
    var run := Proceed(user, teamId, input, s, None);
    assert run.result.Success? ==> |run.steps| == 4 && run.steps[3].SendDocument? by {
      if run.result.Success? {
        SuccessfulProceed(user, teamId, input, s, None);
        var templateId, signer :| PassedGuards(user, teamId, input, s, templateId, signer)
          && run == CreateAndSend(CreateArgsFor(templateId, user, teamId, signer, input), user, teamId, input, s,
                                  [GetLimits(user.id, teamId), GetTemplate(templateId, user.id, teamId)], None);
        SuccessfulSend(CreateArgsFor(templateId, user, teamId, signer, input), user, teamId, input, s,
                       [GetLimits(user.id, teamId), GetTemplate(templateId, user.id, teamId)], None);
      }
    }
    run
  }

  /** The distribution service answers the same whether or not email was turned off. */
  ghost predicate SendIgnoresEmail(s: Services) {
    forall envelopeId: string, userId: int, teamId: int ::
      s.send(SendArgs(envelopeId, userId, teamId, Some(false))) == s.send(SendArgs(envelopeId, userId, teamId, None))
  }

  /** The gateway's trace of a mutation's steps: the same calls, with email turned off on the send. */
  function Quiet(steps: seq<Step>): (r: seq<Step>)
    ensures |r| == |steps|
    ensures forall i :: 0 <= i < |steps| ==>
      r[i] == (if steps[i].SendDocument? then SendDocument(steps[i].send.(sendEmail := Some(false))) else steps[i])
  {
    seq(|steps|, i requires 0 <= i < |steps| =>
      if steps[i].SendDocument? then SendDocument(steps[i].send.(sendEmail := Some(false))) else steps[i])
  }

  lemma QuietNoSend(steps: seq<Step>)
    requires forall i :: 0 <= i < |steps| ==> !steps[i].SendDocument?
    ensures Quiet(steps) == steps
  {
  }

  /** Creating and sending agree up to the email flag on the send. */
  lemma CreateAndSendAgree(args: CreateArgs, user: User, teamId: int, input: Input, s: Services, before: seq<Step>)
    requires SendIgnoresEmail(s)
    requires forall i :: 0 <= i < |before| ==> !before[i].SendDocument?
    ensures var quiet := CreateAndSend(args, user, teamId, input, s, before, Some(false));
      var loud := CreateAndSend(args, user, teamId, input, s, before, None);
      quiet.result == loud.result && quiet.steps == Quiet(loud.steps)
  {
    var loud := CreateAndSend(args, user, teamId, input, s, before, None);
    if s.createDocument(args).Success? {
      var document := s.createDocument(args).value;
      assert s.send(SendArgs(document.id, user.id, teamId, Some(false)))
          == s.send(SendArgs(document.id, user.id, teamId, None));
      assert loud.steps == before + [CreateDocument(args), SendDocument(SendArgs(document.id, user.id, teamId, None))];
    } else {
      QuietNoSend(loud.steps);
    }
  }

  /** Fetching the template onwards agrees up to the email flag on the send. */
  lemma WithTemplateAgree(templateId: int, user: User, teamId: int, input: Input, s: Services)
    requires SendIgnoresEmail(s)
    ensures var quiet := WithTemplate(templateId, user, teamId, input, s, Some(false));
      var loud := WithTemplate(templateId, user, teamId, input, s, None);
      quiet.result == loud.result && quiet.steps == Quiet(loud.steps)
  {
    var template := s.getTemplate(templateId, user.id, teamId);
    var looked := [GetLimits(user.id, teamId), GetTemplate(templateId, user.id, teamId)];
    if template.Success? && FirstSigner(template.value.recipients).Some? {
      var signer := FirstSigner(template.value.recipients).value;
      CreateAndSendAgree(CreateArgsFor(templateId, user, teamId, signer, input), user, teamId, input, s, looked);
    } else {
      QuietNoSend(looked);
    }
  }

  /** Everything after the token checks agrees up to the email flag on the send. */
  lemma ProceedAgree(user: User, teamId: int, input: Input, s: Services)
    requires SendIgnoresEmail(s)
    ensures var quiet := Proceed(user, teamId, input, s, Some(false));
      var loud := Proceed(user, teamId, input, s, None);
      quiet.result == loud.result && quiet.steps == Quiet(loud.steps)
  {
    if s.remainingDocuments(user.id, teamId) > 0 && ParseTemplateId(input.templateEnvelopeId).Success? {
      WithTemplateAgree(ParseTemplateId(input.templateEnvelopeId).value, user, teamId, input, s);
    } else {
      QuietNoSend([GetLimits(user.id, teamId)]);
    }
  }

  /**
   * The two copies agree, provided the send service answers the same whether
   * email is turned off or left unset (`SendIgnoresEmail`): once the gateway has
   * resolved an enabled user bound to a team, it answers exactly as the mutation
   * does for that user and team, and makes the same calls after the token lookup,
   * except that its send turns email off.
   */
  lemma CopiesAgree(apiKey: string, input: Input, s: Services)
    requires SendIgnoresEmail(s)
    requires s.lookupToken(apiKey).Success?
    requires !s.lookupToken(apiKey).value.user.disabled && s.lookupToken(apiKey).value.team.Some?
    ensures var token := s.lookupToken(apiKey).value;
      var gateway := Server.Create(apiKey, input, s);
      var mutation := Create(token.user, token.team.value.id, input, s);
      gateway.result == mutation.result && gateway.steps == [LookupToken(apiKey)] + Quiet(mutation.steps)
  {
    var token := s.lookupToken(apiKey).value;
    ProceedAgree(token.user, token.team.value.id, input, s);
  }
}
