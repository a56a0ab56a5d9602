/**
 * The request and response schemas of the create-envelope operation, as
 * parsers over JSON. String lengths count UTF-16 code units, as the schema
 * library does. The recipient-email and prefill-field schemas are defined
 * elsewhere and enter as parsers: each either refuses its input or returns the
 * value it parsed it into, which the request keeps.
 */
module CreateEnvelopeTypes {
  import opened Wrappers
  import Strings
  import Json
  import Envelope

  const MAX_NAME_LENGTH := 255
  const MAX_TITLE_LENGTH := 255
  const MIN_TITLE_LENGTH := 1

  /** The schemas this one builds on, as parsers: `None` refuses, `Some(x)` is the parsed output. */
  datatype Schemas = Schemas(recipientEmail: string -> Option<string>, prefillField: Json.Value -> Option<Json.Value>)

  /** The fields of the request schema, in declaration order. */
  const REQUEST_FIELDS: seq<string> := ["templateEnvelopeId", "recipientEmail", "recipientName", "title", "prefillFields"]

  function Field(v: Json.Value, key: string): Option<Json.Value> {
    Json.Get(v, key)
  }

  /** A required string field. */
  predicate RequiredString(v: Json.Value, key: string) {
    Field(v, key).Some? && Field(v, key).value.Str?
  }

  /** An optional string field within the given UTF-16 length bounds. */
  predicate OptionalStringWithin(v: Json.Value, key: string, min: nat, max: nat) {
    Field(v, key).None? ||
    (Field(v, key).value.Str? && min <= Strings.Utf16Length(Field(v, key).value.s) <= max)
  }

  /** `z.array(item)`: every element parses, and the outputs are kept in order. */
  function ParseItems(items: seq<Json.Value>, item: Json.Value -> Option<Json.Value>): (r: Option<seq<Json.Value>>)
    ensures r.Some? <==> forall i :: 0 <= i < |items| ==> item(items[i]).Some?
    ensures r.Some? ==> |r.value| == |items| && forall i :: 0 <= i < |items| ==> item(items[i]) == Some(r.value[i])
  {
    if |items| == 0 then Some([])
    else if item(items[0]).None? then None
    else
      var rest := ParseItems(items[1..], item);
      if rest.None? then
        assert exists i :: 1 <= i < |items| && item(items[i]).None? by {
          var j :| 0 <= j < |items| - 1 && item(items[1..][j]).None?;
          assert item(items[j + 1]).None?;
        }
        None
      else Some([item(items[0]).value] + rest.value)
  }

  /** A schema that accepts each of its outputs as itself, as every transform-free schema does. */
  ghost predicate Stable(schemas: Schemas) {
    && (forall s, t :: schemas.recipientEmail(s) == Some(t) ==> schemas.recipientEmail(t) == Some(t))
    && (forall x, y :: schemas.prefillField(x) == Some(y) ==> schemas.prefillField(y) == Some(y))
  }

  /** Whether field `key` of `v` satisfies its rule. */
  predicate FieldValid(v: Json.Value, key: string, schemas: Schemas) {
    if key == "templateEnvelopeId" then RequiredString(v, key)
    else if key == "recipientEmail" then RequiredString(v, key) && schemas.recipientEmail(Field(v, key).value.s).Some?
    else if key == "recipientName" then OptionalStringWithin(v, key, 0, MAX_NAME_LENGTH)
    else if key == "title" then OptionalStringWithin(v, key, MIN_TITLE_LENGTH, MAX_TITLE_LENGTH)
    else if key == "prefillFields" then
      Field(v, key).None? ||
      (Field(v, key).value.Array? && ParseItems(Field(v, key).value.items, schemas.prefillField).Some?)
    else true
  }

  /** The names of the failing fields, in declaration order. */
  function Issues(v: Json.Value, schemas: Schemas): (issues: seq<string>)
    ensures forall k :: k in issues <==> k in REQUEST_FIELDS && !FieldValid(v, k, schemas)
  {
    Filter(REQUEST_FIELDS, v, schemas)
  }

  function Filter(keys: seq<string>, v: Json.Value, schemas: Schemas): (r: seq<string>)
    ensures forall k :: k in r <==> k in keys && !FieldValid(v, k, schemas)
  {
    if |keys| == 0 then []
    else (if FieldValid(v, keys[0], schemas) then [] else [keys[0]]) + Filter(keys[1..], v, schemas)
  }

  function OptionalString(v: Json.Value, key: string): Option<string> {
    if Field(v, key).Some? && Field(v, key).value.Str? then Some(Field(v, key).value.s) else None
  }

  /**
   * Parsing a request: a non-object is rejected as a whole; otherwise every
   * failing field is reported, and unknown fields are dropped. An accepted
   * request keeps what the sub-schemas output.
   */
  function ParseRequest(v: Json.Value, schemas: Schemas): (r: Result<Envelope.Input, seq<string>>)
    ensures !v.Object? ==> r == Failure([])
    ensures v.Object? ==> (r.Success? <==> forall k :: k in REQUEST_FIELDS ==> FieldValid(v, k, schemas))
    ensures r.Failure? && v.Object? ==> forall k :: k in r.error <==> k in REQUEST_FIELDS && !FieldValid(v, k, schemas)
    ensures r.Success? ==>
      && RequiredString(v, "recipientEmail")
      && schemas.recipientEmail(Field(v, "recipientEmail").value.s) == Some(r.value.recipientEmail)
      && (r.value.prefillFields.Some? <==> Field(v, "prefillFields").Some?)
      && (r.value.prefillFields.Some? ==>
            Field(v, "prefillFields").value.Array? &&
            ParseItems(Field(v, "prefillFields").value.items, schemas.prefillField) == r.value.prefillFields)
  {
    if !v.Object? then Failure([])
    else
      var issues := Issues(v, schemas);
      if issues != [] then
        assert issues[0] in issues;
        Failure(issues)
      else
        assert forall k :: k in REQUEST_FIELDS ==> FieldValid(v, k, schemas);
        assert "recipientEmail" in REQUEST_FIELDS && "prefillFields" in REQUEST_FIELDS;
        assert FieldValid(v, "recipientEmail", schemas) && FieldValid(v, "prefillFields", schemas);
        Success(BuildInput(v, schemas))
  }

  /** The input read from an object whose fields pass their rules: the sub-schemas' outputs, the other strings as given. */
  function BuildInput(v: Json.Value, schemas: Schemas): Envelope.Input
    requires FieldValid(v, "templateEnvelopeId", schemas) && FieldValid(v, "recipientEmail", schemas)
    requires FieldValid(v, "prefillFields", schemas)
  {
    Envelope.Input(
      Field(v, "templateEnvelopeId").value.s,
      schemas.recipientEmail(Field(v, "recipientEmail").value.s).value,
      OptionalString(v, "recipientName"),
      OptionalString(v, "title"),
      if Field(v, "prefillFields").Some? then ParseItems(Field(v, "prefillFields").value.items, schemas.prefillField)
      else None)
  }

  /** The input built from fields that each pass their rule meets the constraints. */
  lemma BuiltIsValid(v: Json.Value, schemas: Schemas)
    requires Stable(schemas)
    requires FieldValid(v, "templateEnvelopeId", schemas) && FieldValid(v, "recipientEmail", schemas)
    requires FieldValid(v, "recipientName", schemas) && FieldValid(v, "title", schemas)
    requires FieldValid(v, "prefillFields", schemas)
    ensures ValidInput(BuildInput(v, schemas), schemas)
    ensures BuildInput(v, schemas).title != Some("")
  {
    var input := BuildInput(v, schemas);
    if input.prefillFields.Some? {
      ParseItemsStable(Field(v, "prefillFields").value.items, input.prefillFields.value, schemas);
    }
  }

  /** The outputs of a stable item schema parse back to themselves. */
  lemma ParseItemsStable(items: seq<Json.Value>, out: seq<Json.Value>, schemas: Schemas)
    requires Stable(schemas)
    requires ParseItems(items, schemas.prefillField) == Some(out)
    ensures ParseItems(out, schemas.prefillField) == Some(out)
  {
    forall i | 0 <= i < |out|
      ensures schemas.prefillField(out[i]) == Some(out[i])
    {
      assert schemas.prefillField(items[i]) == Some(out[i]);
    }
    ParseItemsOfFixed(out, schemas.prefillField);
  }

  /** A sequence of fixed points of the item parser parses to itself. */
  lemma {:induction false} ParseItemsOfFixed(xs: seq<Json.Value>, item: Json.Value -> Option<Json.Value>)
    requires forall i :: 0 <= i < |xs| ==> item(xs[i]) == Some(xs[i])
    ensures ParseItems(xs, item) == Some(xs)
  {
    if |xs| > 0 {
      ParseItemsOfFixed(xs[1..], item);
      assert [xs[0]] + xs[1..] == xs;
    }
  }

  /** The constraints a parsed request satisfies; the sub-schema fields are what those schemas accept as themselves. */
  predicate ValidInput(input: Envelope.Input, schemas: Schemas) {
    && schemas.recipientEmail(input.recipientEmail) == Some(input.recipientEmail)
    && (input.recipientName.Some? ==> Strings.Utf16Length(input.recipientName.value) <= MAX_NAME_LENGTH)
    && (input.title.Some? ==> MIN_TITLE_LENGTH <= Strings.Utf16Length(input.title.value) <= MAX_TITLE_LENGTH)
    && (input.prefillFields.Some? ==>
          ParseItems(input.prefillFields.value, schemas.prefillField) == Some(input.prefillFields.value))
  }

  /**
   * With stable sub-schemas, every request the schema accepts satisfies the
   * constraints; in particular an accepted title is never empty.
   */
  lemma ParsedIsValid(v: Json.Value, schemas: Schemas)
    requires Stable(schemas)
    requires ParseRequest(v, schemas).Success?
    ensures ValidInput(ParseRequest(v, schemas).value, schemas)
    ensures ParseRequest(v, schemas).value.title != Some("")
  {
    assert forall k :: k in REQUEST_FIELDS ==> FieldValid(v, k, schemas);
    assert REQUEST_FIELDS == ["templateEnvelopeId", "recipientEmail", "recipientName", "title", "prefillFields"];
    assert FieldValid(v, "templateEnvelopeId", schemas) && FieldValid(v, "recipientEmail", schemas);
    assert FieldValid(v, "recipientName", schemas) && FieldValid(v, "title", schemas);
    assert FieldValid(v, "prefillFields", schemas);
    BuiltIsValid(v, schemas);
  }

  /** The request as a caller would send it: optional fields only when present. */
  function RenderRequest(input: Envelope.Input): Json.Value {
    Json.Object(
      map["templateEnvelopeId" := Json.Str(input.templateEnvelopeId), "recipientEmail" := Json.Str(input.recipientEmail)]
      + (if input.recipientName.Some? then map["recipientName" := Json.Str(input.recipientName.value)] else map[])
      + (if input.title.Some? then map["title" := Json.Str(input.title.value)] else map[])
      + (if input.prefillFields.Some? then map["prefillFields" := Json.Array(input.prefillFields.value)] else map[]))
  }

  /** The fields of a rendered request. */
  lemma RenderedFields(input: Envelope.Input)
    ensures var v := RenderRequest(input);
      && Field(v, "templateEnvelopeId") == Some(Json.Str(input.templateEnvelopeId))
      && Field(v, "recipientEmail") == Some(Json.Str(input.recipientEmail))
      && Field(v, "recipientName") == (if input.recipientName.Some? then Some(Json.Str(input.recipientName.value)) else None)
      && Field(v, "title") == (if input.title.Some? then Some(Json.Str(input.title.value)) else None)
      && Field(v, "prefillFields") ==
           (if input.prefillFields.Some? then Some(Json.Array(input.prefillFields.value)) else None)
  {
  }

  /** A valid request renders to an object every field rule accepts. */
  lemma RenderedFieldsValid(input: Envelope.Input, schemas: Schemas)
    requires ValidInput(input, schemas)
    ensures forall k :: k in REQUEST_FIELDS ==> FieldValid(RenderRequest(input), k, schemas)
  {
    RenderedFields(input);
  }

  /** Every valid request survives rendering and parsing unchanged. */
  lemma RequestRoundTrip(input: Envelope.Input, schemas: Schemas)
    requires ValidInput(input, schemas)
    ensures ParseRequest(RenderRequest(input), schemas) == Success(input)
  {
    RenderedFieldsValid(input, schemas);
    RenderedFields(input);
  }

  /** `ZCreateEnvelopeResponseSchema`: an object with the three string fields, anything else dropped. */
  function ParseResponse(v: Json.Value): (r: Option<Envelope.Output>)
    ensures r.Some? <==>
      RequiredString(v, "envelopeId") && RequiredString(v, "signingUrl") && RequiredString(v, "signingToken")
  {
    if RequiredString(v, "envelopeId") && RequiredString(v, "signingUrl") && RequiredString(v, "signingToken") then
      Some(Envelope.Output(Field(v, "envelopeId").value.s, Field(v, "signingUrl").value.s,
                           Field(v, "signingToken").value.s))
    else None
  }

  function RenderResponse(o: Envelope.Output): Json.Value {
    Json.Object(map["envelopeId" := Json.Str(o.envelopeId), "signingUrl" := Json.Str(o.signingUrl),
                    "signingToken" := Json.Str(o.signingToken)])
  }

  /** Every output the operation produces passes the response schema and reads back unchanged. */
  lemma ResponseRoundTrip(o: Envelope.Output)
    ensures ParseResponse(RenderResponse(o)) == Some(o)
  {
  }
}
