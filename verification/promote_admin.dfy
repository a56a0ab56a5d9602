/**
 * The two maintenance scripts that grant the ADMIN role to a user named by
 * email. The user table is a map from (lower-case) email to the user's roles.
 */
module PromoteAdmin {
  import opened Wrappers
  import Strings

  datatype Role = User | Admin

  type Store = map<string, seq<Role>>

  datatype Outcome = Usage | NotFound(email: string) | AlreadyAdmin(email: string) | Promoted(email: string)

  /** The store after the run, the message printed, and the process exit code. */
  datatype ScriptRun = ScriptRun(outcome: Outcome, store: Store, message: string, exitCode: int)

  /**
   * The shared transition: look the user up by the lower-cased email; an unknown
   * user or an existing admin leaves the store as it is; otherwise ADMIN is
   * appended to the user's roles.
   */
  function Promote(email: string, store: Store): (r: (Outcome, Store))
    ensures var key := Strings.ToLower(email);
      && (key !in store ==> r == (NotFound(email), store))
      && (key in store && Admin in store[key] ==> r == (AlreadyAdmin(email), store))
      && (key in store && Admin !in store[key] ==> r.0 == Promoted(email))
    ensures r.1.Keys == store.Keys
    ensures forall k :: k in store && k != Strings.ToLower(email) ==> r.1[k] == store[k]
    ensures var key := Strings.ToLower(email);
      key in store ==> Admin in r.1[key] && store[key] <= r.1[key] && |r.1[key]| <= |store[key]| + 1
  {
    var key := Strings.ToLower(email);
    if key !in store then (NotFound(email), store)
    else if Admin in store[key] then (AlreadyAdmin(email), store)
    else (Promoted(email), store[key := store[key] + [Admin]])
  }

  /** Promoting twice is promoting once. */
  lemma PromoteIdempotent(email: string, store: Store)
    ensures Promote(email, Promote(email, store).1).1 == Promote(email, store).1
  {
  }

  /** A promotion appends exactly one ADMIN, after the user's existing roles. */
  lemma PromotionAppendsOnce(email: string, store: Store)
    requires Promote(email, store).0.Promoted?
    ensures var key := Strings.ToLower(email);
      Promote(email, store).1[key] == store[key] + [Admin]
  {
  }

  /** `process.argv[2]`, when present and non-empty. */
  function EmailArgument(argv: seq<string>): Option<string> {
    if |argv| > 2 && argv[2] != "" then Some(argv[2]) else None
  }

  /** scripts/promote-user-to-admin.ts. */
  function PromoteUserToAdmin(argv: seq<string>, store: Store): (run: ScriptRun)
    ensures EmailArgument(argv).None? ==>
      run == ScriptRun(Usage, store, "Usage: npx tsx scripts/promote-user-to-admin.ts <email>", 1)
    ensures EmailArgument(argv).Some? ==>
      var (outcome, after) := Promote(EmailArgument(argv).value, store);
      && run.outcome == outcome && run.store == after
      && (run.exitCode == 1 <==> outcome.NotFound?)
      && (!outcome.NotFound? ==> run.exitCode == 0)
  {
    match EmailArgument(argv)
    case None => ScriptRun(Usage, store, "Usage: npx tsx scripts/promote-user-to-admin.ts <email>", 1)
    case Some(email) =>
      var (outcome, after) := Promote(email, store);
      match outcome
      case NotFound(_) => ScriptRun(outcome, after, "User not found: " + email, 1)
      case AlreadyAdmin(_) => ScriptRun(outcome, after, "User " + email + " is already an admin.", 0)
      case _ => ScriptRun(outcome, after, "Promoted " + email + " to admin.", 0)
  }

  /** scripts/promote-admin.ts. */
  function PromoteAdminScript(argv: seq<string>, store: Store): (run: ScriptRun)
    ensures EmailArgument(argv).None? ==>
      run == ScriptRun(Usage, store, "Usage: npx tsx scripts/promote-admin.ts <email>", 1)
    ensures EmailArgument(argv).Some? ==>
      var (outcome, after) := Promote(EmailArgument(argv).value, store);
      && run.outcome == outcome && run.store == after
      && (run.exitCode == 1 <==> outcome.NotFound?)
      && (!outcome.NotFound? ==> run.exitCode == 0)
  {
    match EmailArgument(argv)
    case None => ScriptRun(Usage, store, "Usage: npx tsx scripts/promote-admin.ts <email>", 1)
    case Some(email) =>
      var (outcome, after) := Promote(email, store);
      match outcome
      case NotFound(_) => ScriptRun(outcome, after, "User not found: " + email, 1)
      case AlreadyAdmin(_) => ScriptRun(outcome, after, email + " is already an admin.", 0)
      case _ => ScriptRun(outcome, after, "Promoted " + email + " to admin.", 0)
  }

  /** The two scripts make the same change to the user table for every command line. */
  lemma ScriptsAgree(argv: seq<string>, store: Store)
    ensures PromoteUserToAdmin(argv, store).store == PromoteAdminScript(argv, store).store
    ensures PromoteUserToAdmin(argv, store).outcome == PromoteAdminScript(argv, store).outcome
  {
  }

  /** Addresses differing only in ASCII letter case name the same user. */
  lemma CaseInsensitiveLookup(a: string, b: string, store: Store)
    requires Strings.ToLower(a) == Strings.ToLower(b)
    ensures Promote(a, store).1 == Promote(b, store).1
  {
  }
}
