/**
 * The organisation name rule and the create-organisation request and
 * response schemas. Lengths count UTF-16 code units, as the schema library does.
 */
module Organisation {
  import opened Wrappers
  import Strings
  import Json

  const MIN_NAME_LENGTH := 3
  const MAX_NAME_LENGTH := 50
  const TOO_SHORT := "Minimum 3 characters"
  const TOO_LONG := "Maximum 50 characters"
  const NOT_A_STRING := "Expected string"
  const NOT_AN_OBJECT := "Expected object"

  /** `ZOrganisationNameSchema` on a string: the messages of the failing bounds. */
  function NameIssues(name: string): (issues: seq<string>)
    ensures issues == [] <==> MIN_NAME_LENGTH <= Strings.Utf16Length(name) <= MAX_NAME_LENGTH
    ensures issues == [TOO_SHORT] <==> Strings.Utf16Length(name) < MIN_NAME_LENGTH
    ensures issues == [TOO_LONG] <==> Strings.Utf16Length(name) > MAX_NAME_LENGTH
  {
    var n := Strings.Utf16Length(name);
    assert TOO_SHORT[1] != TOO_LONG[1];
    if n < MIN_NAME_LENGTH then [TOO_SHORT] else if n > MAX_NAME_LENGTH then [TOO_LONG] else []
  }

  /** Only the length matters: two names of equal length are judged alike, whatever their characters. */
  lemma NameJudgedByLengthOnly(a: string, b: string)
    requires Strings.Utf16Length(a) == Strings.Utf16Length(b)
    ensures NameIssues(a) == NameIssues(b)
  {
  }

  datatype CreateRequest = CreateRequest(name: string, priceId: Option<string>)

  /** `ZCreateOrganisationRequestSchema`: the failing field messages, or the request with unknown keys dropped. */
  function ParseRequest(v: Json.Value): (r: Result<CreateRequest, seq<string>>)
    ensures r.Success? <==>
      && v.Object?
      && Json.GetString(v, "name").Some? && NameIssues(Json.GetString(v, "name").value) == []
      && (Json.Get(v, "priceId").None? || Json.GetString(v, "priceId").Some?)
    ensures r.Success? ==> r.value == CreateRequest(Json.GetString(v, "name").value, Json.GetString(v, "priceId"))
    ensures !v.Object? ==> r == Failure([NOT_AN_OBJECT])
  {
    if !v.Object? then Failure([NOT_AN_OBJECT])
    else
      var name := Json.GetString(v, "name");
      var nameIssues := if name.Some? then NameIssues(name.value) else [NOT_A_STRING];
      var priceIssues := if Json.Get(v, "priceId").None? || Json.GetString(v, "priceId").Some? then []
                         else [NOT_A_STRING];
      if nameIssues + priceIssues == [] then Success(CreateRequest(name.value, Json.GetString(v, "priceId")))
      else
        assert |nameIssues + priceIssues| > 0;
        Failure(nameIssues + priceIssues)
  }

  /** The two shapes of `ZCreateOrganisationResponseSchema`. */
  datatype CreateResponse = NoPaymentRequired | PaymentRequired(checkoutUrl: string)

  /**
   * The union: `paymentRequired: false` alone suffices (anything else is dropped);
   * `paymentRequired: true` also needs a string `checkoutUrl`.
   */
  function ParseResponse(v: Json.Value): (r: Option<CreateResponse>)
    ensures r == Some(NoPaymentRequired) <==> Json.Get(v, "paymentRequired") == Some(Json.Bool(false))
    ensures r.Some? && r.value.PaymentRequired? <==>
      Json.Get(v, "paymentRequired") == Some(Json.Bool(true)) && Json.GetString(v, "checkoutUrl").Some?
    ensures r.Some? && r.value.PaymentRequired? ==> r.value.checkoutUrl == Json.GetString(v, "checkoutUrl").value
  {
    match Json.Get(v, "paymentRequired")
    case Some(Bool(false)) => Some(NoPaymentRequired)
    case Some(Bool(true)) =>
      if Json.GetString(v, "checkoutUrl").Some? then Some(PaymentRequired(Json.GetString(v, "checkoutUrl").value))
      else None
    case _ => None
  }

  function RenderResponse(r: CreateResponse): Json.Value {
    match r
    case NoPaymentRequired => Json.Object(map["paymentRequired" := Json.Bool(false)])
    case PaymentRequired(url) =>
      Json.Object(map["paymentRequired" := Json.Bool(true), "checkoutUrl" := Json.Str(url)])
  }

  /** Both shapes survive rendering and parsing unchanged. */
  lemma ResponseRoundTrip(r: CreateResponse)
    ensures ParseResponse(RenderResponse(r)) == Some(r)
  {
  }
}
