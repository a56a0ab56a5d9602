/**
 * The sign-up page's loader: when sign-up is disabled, only a visitor holding
 * an organisation invite that was not declined may proceed; everyone else is
 * sent to `/signin`. The page data echoes the invite token and a validated
 * `returnTo`.
 */
module Signup {
  import opened Wrappers

  const DISABLED_FLAG := "true"
  const SIGNIN := "/signin"

  datatype InviteStatus = Pending | Accepted | Declined

  /** `NEXT_PUBLIC_DISABLE_SIGNUP` and the SSO switches read at render time. */
  datatype LoaderEnv = LoaderEnv(disableSignup: Option<string>, googleSso: bool, microsoftSso: bool, oidcSso: bool)

  datatype PageData = PageData(
    isGoogleSSOEnabled: bool,
    isMicrosoftSSOEnabled: bool,
    isOIDCSSOEnabled: bool,
    returnTo: Option<string>,
    inviteToken: Option<string>)

  datatype Outcome = Render(data: PageData) | Redirect(location: string)

  /** The outcome and the invite tokens looked up. */
  datatype Loaded = Loaded(outcome: Outcome, lookups: seq<string>)

  /** The helpers the loader relies on: the invite lookup and the `returnTo` checks. */
  datatype Helpers = Helpers(
    findInvite: string -> Option<InviteStatus>,
    isValidReturnTo: Option<string> -> bool,
    normalizeReturnTo: Option<string> -> string)

  predicate Gated(env: LoaderEnv) {
    env.disableSignup == Some(DISABLED_FLAG)
  }

  function Param(query: map<string, string>, key: string): Option<string> {
    if key in query then Some(query[key]) else None
  }

  /** The page data: SSO switches as configured, `returnTo` only when valid, the invite token as given. */
  function Data(env: LoaderEnv, query: map<string, string>, h: Helpers): (data: PageData)
    ensures data.returnTo.Some? <==> h.isValidReturnTo(Param(query, "returnTo"))
    ensures data.returnTo.Some? ==> data.returnTo.value == h.normalizeReturnTo(Param(query, "returnTo"))
    ensures data.inviteToken == Param(query, "inviteToken")
    ensures data.isGoogleSSOEnabled == env.googleSso && data.isMicrosoftSSOEnabled == env.microsoftSso
    ensures data.isOIDCSSOEnabled == env.oidcSso
  {
    var returnTo := Param(query, "returnTo");
    PageData(env.googleSso, env.microsoftSso, env.oidcSso,
             if h.isValidReturnTo(returnTo) then Some(h.normalizeReturnTo(returnTo)) else None,
             Param(query, "inviteToken"))
  }

  /** `loader`: the gate, then the page data. */
  function Loader(env: LoaderEnv, query: map<string, string>, h: Helpers): (r: Loaded)
    // Without the flag set to exactly "true" the page always renders and nothing is looked up.
    ensures !Gated(env) ==> r == Loaded(Render(Data(env, query, h)), [])
    // An absent or empty invite token is refused without a lookup.
    ensures Gated(env) && (Param(query, "inviteToken") == None || Param(query, "inviteToken") == Some("")) ==>
      r == Loaded(Redirect(SIGNIN), [])
    ensures Gated(env) && "inviteToken" in query && query["inviteToken"] != "" ==>
      var token := query["inviteToken"];
      && r.lookups == [token]
      && r.outcome == (if h.findInvite(token).Some? && h.findInvite(token).value != Declined
                       then Render(Data(env, query, h)) else Redirect(SIGNIN))
  {
    var token := Param(query, "inviteToken");
    if !Gated(env) then Loaded(Render(Data(env, query, h)), [])
    else if token.None? || token.value == "" then Loaded(Redirect(SIGNIN), [])
    else
      var invite := h.findInvite(token.value);
      if invite.Some? && invite.value != Declined then Loaded(Render(Data(env, query, h)), [token.value])
      else Loaded(Redirect(SIGNIN), [token.value])
  }

  /**
   * The page renders exactly when sign-up is open, or when the visitor holds a
   * non-empty invite token naming an invite that was not declined; every other
   * visitor is redirected, and only ever to `/signin`.
   */
  lemma RenderedExactly(env: LoaderEnv, query: map<string, string>, h: Helpers)
    ensures var r := Loader(env, query, h);
      && (r.outcome.Render? <==>
            !Gated(env) ||
            ("inviteToken" in query && query["inviteToken"] != "" && h.findInvite(query["inviteToken"]).Some?
             && h.findInvite(query["inviteToken"]).value != Declined))
      && (r.outcome.Redirect? ==> r.outcome.location == SIGNIN)
  {
  }
}
