/**
 * `createEnvelopeFromTemplate` as the token-exchange gateway runs it: the
 * caller is identified by a Documenso API token, the user must be enabled and
 * the token bound to a team, and the document is distributed without email.
 */
module ServerCreateEnvelope {
  import opened Wrappers
  import opened Envelope

  /** `createEnvelopeFromTemplate(input)` with the API key `apiKey`. */
  function Create(apiKey: string, input: Input, s: Services): (run: Run)
    ensures |run.steps| >= 1 && run.steps[0] == LookupToken(apiKey)
    ensures s.lookupToken(apiKey).Failure? ==> run == Run(Failure(s.lookupToken(apiKey).error), [LookupToken(apiKey)])
    // A disabled user, then a token without a team: both refused before limits are consulted.
    ensures s.lookupToken(apiKey).Success? && s.lookupToken(apiKey).value.user.disabled ==>
      run == Run(Failure(AppError(UNAUTHORIZED, USER_DISABLED)), [LookupToken(apiKey)])
    ensures s.lookupToken(apiKey).Success? && !s.lookupToken(apiKey).value.user.disabled &&
            s.lookupToken(apiKey).value.team.None? ==>
      run == Run(Failure(AppError(UNAUTHORIZED, NO_TEAM)), [LookupToken(apiKey)])
    ensures s.lookupToken(apiKey).Success? && !s.lookupToken(apiKey).value.user.disabled &&
            s.lookupToken(apiKey).value.team.Some? ==>
      var token := s.lookupToken(apiKey).value;
      var rest := Proceed(token.user, token.team.value.id, input, s, Some(false));
      run == Run(rest.result, [LookupToken(apiKey)] + rest.steps)
  {
    match s.lookupToken(apiKey)
    case Failure(e) => Run(Failure(e), [LookupToken(apiKey)])
    case Success(token) =>
      if token.user.disabled then Run(Failure(AppError(UNAUTHORIZED, USER_DISABLED)), [LookupToken(apiKey)])
      else if token.team.None? then Run(Failure(AppError(UNAUTHORIZED, NO_TEAM)), [LookupToken(apiKey)])
      else
        var rest := Proceed(token.user, token.team.value.id, input, s, Some(false));
        Run(rest.result, [LookupToken(apiKey)] + rest.steps)
  }

  /** The gateway copy succeeds only for an enabled user whose token is bound to a team, and then runs `Proceed`. */
  lemma SuccessfulCreate(apiKey: string, input: Input, s: Services)
    requires Create(apiKey, input, s).result.Success?
    ensures s.lookupToken(apiKey).Success?
    ensures var token := s.lookupToken(apiKey).value;
      && !token.user.disabled && token.team.Some?
      && Create(apiKey, input, s) ==
           Run(Proceed(token.user, token.team.value.id, input, s, Some(false)).result,
               [LookupToken(apiKey)] + Proceed(token.user, token.team.value.id, input, s, Some(false)).steps)
  {
  }
}
