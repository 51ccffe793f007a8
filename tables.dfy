/** The request and response keyword tables (connexion/json_schema.py, lines 153-168):
    the Draft 4 table with connexion's handlers laid over it. Which table a validator was
    built from decides which read-only/write-only rules apply. */
module Tables {
  import opened Wrappers
  import opened Json
  import opened Validation
  import opened Keywords
  import opened Combinators

  /** Which side of an API call the validator checks. */
  datatype Mode = Request | Response

  /** The keywords Draft 4 validates. None of `readOnly`, `writeOnly` and `x-writeOnly` is
      among them. */
  const Draft4Keywords: set<string> := {
    "$ref", "additionalItems", "additionalProperties", "allOf", "anyOf", "dependencies",
    "enum", "format", "items", "maxItems", "maxLength", "maxProperties", "maximum",
    "minItems", "minLength", "minProperties", "minimum", "multipleOf", "not", "oneOf",
    "pattern", "patternProperties", "properties", "required", "type", "uniqueItems"}

  /** The handler a table entry runs. */
  datatype Handler =
    | Draft4(keyword: string)
    | TypeHandler
    | EnumHandler
    | RequiredHandler
    | ReadOnlyHandler
    | WriteOnlyHandler
    | OneOfHandler
    | AllOfHandler
    | PropertiesHandler

  /** The handlers each table installs. */
  function Overrides(mode: Mode): map<string, Handler>
  {
    match mode
    case Request =>
      map["type" := TypeHandler, "enum" := EnumHandler, "required" := RequiredHandler,
          "readOnly" := ReadOnlyHandler, "oneOf" := OneOfHandler, "allOf" := AllOfHandler]
    case Response =>
      map["type" := TypeHandler, "enum" := EnumHandler, "required" := RequiredHandler,
          "writeOnly" := WriteOnlyHandler, "x-writeOnly" := WriteOnlyHandler,
          "properties" := PropertiesHandler, "oneOf" := OneOfHandler]
  }

  /** The keys of `extend(Draft4Validator, overrides).VALIDATORS`. */
  function Registered(mode: Mode): set<string>
  {
    Draft4Keywords + Overrides(mode).Keys
  }

  /** The handler `extend(Draft4Validator, overrides).VALIDATORS` gives a keyword: the
      override if there is one, else Draft 4's own, else none. */
  function Lookup(mode: Mode, keyword: string): (h: Option<Handler>)
    ensures h.Some? <==> keyword in Registered(mode)
  {
    if keyword in Overrides(mode) then Some(Overrides(mode)[keyword])
    else if keyword in Draft4Keywords then Some(Draft4(keyword))
    else None
  }

  /** The validator a table builds around an engine. */
  function ValidatorFor(mode: Mode, e: Engine): (v: Validator)
    ensures v.engine == e && v.keywords == Registered(mode)
  {
    Validator(e, Registered(mode))
  }

  lemma NotDraft4()
    ensures "readOnly" !in Draft4Keywords
    ensures "writeOnly" !in Draft4Keywords
    ensures "x-writeOnly" !in Draft4Keywords
  {
  }

  /** `readOnly` is registered only for requests, `writeOnly` and `x-writeOnly` only for
      responses. */
  lemma Registration()
    ensures "readOnly" in Registered(Request) && "readOnly" !in Registered(Response)
    ensures "writeOnly" in Registered(Response) && "writeOnly" !in Registered(Request)
    ensures "x-writeOnly" in Registered(Response) && "x-writeOnly" !in Registered(Request)
  {
    NotDraft4();
    assert "readOnly" in Overrides(Request);
    assert "writeOnly" !in Overrides(Request) && "x-writeOnly" !in Overrides(Request);
    assert "writeOnly" in Overrides(Response) && "x-writeOnly" in Overrides(Response);
    assert "readOnly" !in Overrides(Response);
  }

  /** Running the handler a table gives a keyword; a keyword with no entry yields
      nothing. */
  function KeywordErrors(mode: Mode, e: Engine, keyword: string, value: Json, instance: Json, schema: Json): (errs: seq<ValidationError>)
    ensures keyword !in Registered(mode) ==> errs == []
  {
    var v := ValidatorFor(mode, e);
    match Lookup(mode, keyword)
    case None => []
    case Some(Draft4(k)) => e.draft4(k, value, instance, schema)
    case Some(TypeHandler) => ValidateType(v, value, instance, schema)
    case Some(EnumHandler) => ValidateEnum(v, value, instance, schema)
    case Some(RequiredHandler) => ValidateRequired(v, value, instance, schema)
    case Some(ReadOnlyHandler) => ValidateReadOnly(v, value, instance, schema)
    case Some(WriteOnlyHandler) => ValidateWriteOnly(v, value, instance, schema)
    case Some(OneOfHandler) => OneOfErrors(v, value, instance, schema)
    case Some(AllOfHandler) => AllOfErrors(e, value, instance)
    case Some(PropertiesHandler) => ValidateProperties(v, value, instance, schema)
  }

  /** The entries for `readOnly`, `writeOnly` and `x-writeOnly`. */
  lemma MarkerEntries()
    ensures Lookup(Request, "readOnly") == Some(ReadOnlyHandler)
    ensures Lookup(Response, "readOnly") == None
    ensures Lookup(Response, "writeOnly") == Some(WriteOnlyHandler)
    ensures Lookup(Response, "x-writeOnly") == Some(WriteOnlyHandler)
    ensures Lookup(Request, "writeOnly") == None && Lookup(Request, "x-writeOnly") == None
  {
    Registration();
  }

  /** A `readOnly` keyword always fails a request and is not checked in a response. */
  lemma ReadOnlyByMode(e: Engine, ro: Json, instance: Json, schema: Json)
    ensures KeywordErrors(Request, e, "readOnly", ro, instance, schema) == [ReadOnlyProperty]
    ensures KeywordErrors(Response, e, "readOnly", ro, instance, schema) == []
  {
    MarkerEntries();
  }

  /** `writeOnly` and `x-writeOnly` always fail a response and are not checked in a
      request. */
  lemma WriteOnlyByMode(e: Engine, wo: Json, instance: Json, schema: Json)
    ensures KeywordErrors(Response, e, "writeOnly", wo, instance, schema) == [WriteOnlyProperty]
    ensures KeywordErrors(Response, e, "x-writeOnly", wo, instance, schema) == [WriteOnlyProperty]
    ensures KeywordErrors(Request, e, "writeOnly", wo, instance, schema) == []
    ensures KeywordErrors(Request, e, "x-writeOnly", wo, instance, schema) == []
  {
    MarkerEntries();
  }

  /** The entries that differ between the two tables besides the markers, and the
      `required` entry they share. */
  lemma DifferingEntries()
    ensures Lookup(Request, "properties") == Some(Draft4("properties"))
    ensures Lookup(Response, "properties") == Some(PropertiesHandler)
    ensures Lookup(Request, "allOf") == Some(AllOfHandler)
    ensures Lookup(Response, "allOf") == Some(Draft4("allOf"))
    ensures Lookup(Request, "required") == Some(RequiredHandler)
    ensures Lookup(Response, "required") == Some(RequiredHandler)
  {
    assert "properties" in Draft4Keywords && "allOf" in Draft4Keywords;
    assert "properties" !in Overrides(Request);
    assert "allOf" !in Overrides(Response);
  }

  /** `properties` is connexion's only in responses, `allOf` only in requests. */
  lemma PropertiesByMode(e: Engine, value: Json, instance: Json, schema: Json)
    ensures KeywordErrors(Request, e, "properties", value, instance, schema) == e.draft4("properties", value, instance, schema)
    ensures KeywordErrors(Response, e, "properties", value, instance, schema)
         == ValidateProperties(ValidatorFor(Response, e), value, instance, schema)
  {
    DifferingEntries();
  }

  lemma AllOfByMode(e: Engine, value: Json, instance: Json, schema: Json)
    ensures KeywordErrors(Request, e, "allOf", value, instance, schema) == AllOfErrors(e, value, instance)
    ensures KeywordErrors(Response, e, "allOf", value, instance, schema) == e.draft4("allOf", value, instance, schema)
  {
    DifferingEntries();
  }

  /** Both tables run connexion's `required` handler. */
  lemma RequiredEntry(mode: Mode, e: Engine, value: Json, instance: Json, schema: Json)
    ensures KeywordErrors(mode, e, "required", value, instance, schema)
         == ValidateRequired(ValidatorFor(mode, e), value, instance, schema)
  {
    DifferingEntries();
  }

  /** In a request, a missing required property marked `readOnly: true` is let off and one
      marked `writeOnly: true` is reported. */
  lemma RequiredInRequest(e: Engine, name: string, instance: Json)
    requires e.isType(instance, Str("object"))
    requires !Has(instance, name)
    ensures KeywordErrors(Request, e, "required", Arr([Str(name)]), instance,
              Obj([("properties", Obj([(name, Obj([("readOnly", Bool(true))]))]))])) == []
    ensures KeywordErrors(Request, e, "required", Arr([Str(name)]), instance,
              Obj([("properties", Obj([(name, Obj([("writeOnly", Bool(true))]))]))])) == [RequiredMissing(Str(name))]
  {
    var v := ValidatorFor(Request, e);
    Registration();
    RequiredEntry(Request, e, Arr([Str(name)]), instance,
      Obj([("properties", Obj([(name, Obj([("readOnly", Bool(true))]))]))]));
    RequiredEntry(Request, e, Arr([Str(name)]), instance,
      Obj([("properties", Obj([(name, Obj([("writeOnly", Bool(true))]))]))]));
    ReadOnlyExemption(v, name, instance);
    WriteOnlyExemption(v, name, instance);
  }

  /** In a response, the other way round. */
  lemma RequiredInResponse(e: Engine, name: string, instance: Json)
    requires e.isType(instance, Str("object"))
    requires !Has(instance, name)
    ensures KeywordErrors(Response, e, "required", Arr([Str(name)]), instance,
              Obj([("properties", Obj([(name, Obj([("readOnly", Bool(true))]))]))])) == [RequiredMissing(Str(name))]
    ensures KeywordErrors(Response, e, "required", Arr([Str(name)]), instance,
              Obj([("properties", Obj([(name, Obj([("writeOnly", Bool(true))]))]))])) == []
  {
    var v := ValidatorFor(Response, e);
    Registration();
    RequiredEntry(Response, e, Arr([Str(name)]), instance,
      Obj([("properties", Obj([(name, Obj([("readOnly", Bool(true))]))]))]));
    RequiredEntry(Response, e, Arr([Str(name)]), instance,
      Obj([("properties", Obj([(name, Obj([("writeOnly", Bool(true))]))]))]));
    ReadOnlyExemption(v, name, instance);
    WriteOnlyExemption(v, name, instance);
  }
}
