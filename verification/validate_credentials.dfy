/**
 * `validateThirdPartyCredentials`: accepts an untyped credentials record only
 * when it holds string `host`, `accessKey` and `secretKey`, and then reports
 * the point-of-sale check's verdict as a boolean.
 */
module ValidateCredentials {
  import opened Wrappers
  import Json
  import Pos = PosClient

  /** `isPOSCredentials`: the three fields are strings. */
  predicate IsPosCredentials(record: map<string, Json.Value>) {
    && "host" in record && record["host"].Str?
    && "accessKey" in record && record["accessKey"].Str?
    && "secretKey" in record && record["secretKey"].Str?
  }

  /** The typed credentials read from a record; `appId` is forwarded only when it is a number. */
  function ToCredentials(record: map<string, Json.Value>): (c: Pos.Credentials)
    requires IsPosCredentials(record)
    ensures c.host == record["host"].s && c.accessKey == record["accessKey"].s && c.secretKey == record["secretKey"].s
    ensures c.appId.Some? <==> "appId" in record && record["appId"].Number?
    ensures c.appId.Some? ==> record["appId"] == Json.Number(c.appId.value)
  {
    Pos.Credentials(record["host"].s, record["accessKey"].s, record["secretKey"].s,
                    if "appId" in record && record["appId"].Number? then Some(record["appId"].n) else None)
  }

  /** The boolean verdict and the test URL requested, if any. */
  function Validate(record: map<string, Json.Value>, now: string, sign: (string, string) -> string,
                    fetch: string -> Pos.PosReply): (out: (bool, Option<string>))
    // A record of the wrong shape is refused without any request.
    ensures !IsPosCredentials(record) ==> out == (false, None)
    ensures IsPosCredentials(record) ==>
      var checked := Pos.Validate(ToCredentials(record), now, sign, fetch);
      out.1 == checked.url && (out.0 <==> checked.result.Valid?)
  {
    if !IsPosCredentials(record) then (false, None)
    else
      var checked := Pos.Validate(ToCredentials(record), now, sign, fetch);
      (checked.result.Valid?, checked.url)
  }

  /**
   * The verdict is true exactly for well-shaped, complete credentials whose signed
   * test request got an ok reply with a JSON body that carries no truthy `error`.
   */
  lemma ValidExactly(record: map<string, Json.Value>, now: string, sign: (string, string) -> string,
                     fetch: string -> Pos.PosReply)
    ensures Validate(record, now, sign, fetch).0 <==>
      && IsPosCredentials(record)
      && var c := ToCredentials(record);
         && Pos.Complete(c)
         && var reply := fetch(Pos.SignedUrl(c, now, sign));
            reply.PosReply? && 200 <= reply.status < 300 && reply.json.Some? && !Pos.CarriesError(reply.json.value)
  {
  }
}
