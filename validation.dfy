/** What every keyword handler receives: the validator it is installed in (the Draft 4
    engine's `is_type`, `descend` and `is_valid`, and the names of the keywords its table
    registers), the keyword's value, the instance and the enclosing schema. A handler's
    result is the finite sequence of errors it yields. */
module Validation {
  import opened Wrappers
  import opened Json

  /** One step of an error path: a property name or a list index. */
  datatype PathStep = Key(name: string) | Index(n: nat)

  /** The errors the handlers yield, as kinds carrying what the message would mention. */
  datatype ValidationError =
    | TypeMismatch(instance: Json, types: seq<Json>)
    | NotInEnum(instance: Json, enums: Json)
    | RequiredMissing(property: Json)
    | ReadOnlyProperty
    | WriteOnlyProperty
    | NoneValid(instance: Json, context: seq<ValidationError>)
    | ManyValid(instance: Json, schemas: seq<Json>)

  /** The Draft 4 engine the handlers call back into.
      `descend(instance, schema, path, schemaPath)` validates `instance` against `schema`
      and yields its errors, extended by `path` (when given) and `schemaPath`;
      `draft4(keyword, value, instance, schema)` runs the Draft 4 handler of a keyword that
      has no handler of its own here. */
  datatype Engine = Engine(
    isType: (Json, Json) -> bool,
    descend: (Json, Json, Option<PathStep>, PathStep) -> seq<ValidationError>,
    isValid: (Json, Json) -> bool,
    draft4: (string, Json, Json, Json) -> seq<ValidationError>)

  /** A validator: its engine and the keys of its keyword table (`validator.VALIDATORS`). */
  datatype Validator = Validator(engine: Engine, keywords: set<string>)

  /** `is_valid` agrees with `descend` yielding nothing, as it does in the Draft 4 engine. */
  ghost predicate Coherent(e: Engine)
  {
    forall instance, schema, i: nat ::
      (e.descend(instance, schema, None, Index(i)) == []) == e.isValid(instance, schema)
  }

  /** The OpenAPI nullable short-circuit: a null instance passes when the schema's
      `x-nullable` is exactly `true` or its `nullable` is truthy. */
  predicate NullExempt(instance: Json, schema: Json)
  {
    instance == Null && (IsTrueGet(schema, "x-nullable") || TruthyGet(schema, "nullable"))
  }

  /** `x-nullable` must be the literal `true`; `nullable` only needs to be truthy. */
  lemma NullExemptFlags()
    ensures !NullExempt(Null, Obj([("x-nullable", Int(1))]))
    ensures !NullExempt(Null, Obj([("x-nullable", Str("true"))]))
    ensures NullExempt(Null, Obj([("nullable", Int(1))]))
    ensures NullExempt(Null, Obj([("nullable", Str("true"))]))
    ensures NullExempt(Null, Obj([("x-nullable", Bool(true))]))
    ensures !NullExempt(Null, Obj([("nullable", Bool(false))]))
    ensures !NullExempt(Int(0), Obj([("nullable", Bool(true))]))
  {
  }
}
