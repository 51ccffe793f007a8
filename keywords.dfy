/** The keyword handlers that look at one keyword and yield at most one error per item:
    `type`, `enum`, `required`, `readOnly`, `writeOnly` and `properties`
    (connexion/json_schema.py, lines 59-101 and 136-151). */
module Keywords {
  import opened Wrappers
  import opened Json
  import opened Validation

  /* ---------------------------------------------------------------- type */

  /** `ensure_list(types)`: a single type name becomes a one-element list; anything else is
      iterated as it is. */
  function EnsureList(types: Json): (ts: seq<Json>)
    ensures types.Str? ==> ts == [types]
    ensures types.Arr? ==> ts == types.items
  {
    if types.Str? then [types] else Iterate(types)
  }

  /** `any(is_type(instance, t) for t in ts)`. */
  predicate MatchesSome(isType: (Json, Json) -> bool, instance: Json, ts: seq<Json>)
  {
    ts != [] && (isType(instance, ts[0]) || MatchesSome(isType, instance, ts[1..]))
  }

  lemma {:induction false} MatchesSomeExists(isType: (Json, Json) -> bool, instance: Json, ts: seq<Json>)
    ensures MatchesSome(isType, instance, ts) <==> exists i :: 0 <= i < |ts| && isType(instance, ts[i])
  {
    if ts != [] {
      MatchesSomeExists(isType, instance, ts[1..]);
      if MatchesSome(isType, instance, ts[1..]) {
        var i :| 0 <= i < |ts[1..]| && isType(instance, ts[1..][i]);
        assert isType(instance, ts[i + 1]);
      }
      if exists i :: 0 <= i < |ts| && isType(instance, ts[i]) {
        var i :| 0 <= i < |ts| && isType(instance, ts[i]);
        if i > 0 {
          assert ts[1..][i - 1] == ts[i];
        }
      }
    }
  }

  /** `validate_type`: one error, listing the declared types, when the instance is of none
      of them; nothing for an exempt null. */
  function ValidateType(v: Validator, types: Json, instance: Json, schema: Json): (errs: seq<ValidationError>)
    ensures |errs| <= 1
    ensures errs != [] ==> errs[0] == TypeMismatch(instance, EnsureList(types))
    ensures errs == [] <==>
      NullExempt(instance, schema) ||
      exists i :: 0 <= i < |EnsureList(types)| && v.engine.isType(instance, EnsureList(types)[i])
  {
    if NullExempt(instance, schema) then []
    else
      var ts := EnsureList(types);
      MatchesSomeExists(v.engine.isType, instance, ts);
      if MatchesSome(v.engine.isType, instance, ts) then [] else [TypeMismatch(instance, ts)]
  }

  /** A single type name is checked as the one-element list holding it. */
  lemma ScalarType(v: Validator, t: string, instance: Json, schema: Json)
    requires !NullExempt(instance, schema)
    ensures ValidateType(v, Str(t), instance, schema) ==
      if v.engine.isType(instance, Str(t)) then [] else [TypeMismatch(instance, [Str(t)])]
  {
    assert EnsureList(Str(t))[0] == Str(t);
  }

  /* ---------------------------------------------------------------- enum */

  /** `sub in s` on strings: `sub` occurs somewhere in `s`. */
  predicate Occurs(sub: string, s: string)
    decreases |s|
  {
    sub <= s || (s != [] && Occurs(sub, s[1..]))
  }

  /** `sub` starts at position `i` of `s`. */
  predicate OccursAt(sub: string, s: string, i: int)
  {
    0 <= i && i + |sub| <= |s| && s[i..i + |sub|] == sub
  }

  lemma {:induction false} OccursSomewhere(sub: string, s: string)
    ensures Occurs(sub, s) <==> exists i :: OccursAt(sub, s, i)
    decreases |s|
  {
    if sub <= s {
      assert OccursAt(sub, s, 0);
    } else if s != [] {
      OccursSomewhere(sub, s[1..]);
      if Occurs(sub, s[1..]) {
        var i :| OccursAt(sub, s[1..], i);
        assert s[1..][i..i + |sub|] == s[i + 1..i + 1 + |sub|];
        assert OccursAt(sub, s, i + 1);
      }
      if exists i :: OccursAt(sub, s, i) {
        var i :| OccursAt(sub, s, i);
        if i != 0 {
          assert s[1..][i - 1..i - 1 + |sub|] == s[i..i + |sub|];
          assert OccursAt(sub, s[1..], i - 1);
        }
      }
    }
  }

  /** `instance in enums`: membership in a list under Python's `==` (`JsonEq`), a key of a
      mapping, a substring of a string. */
  predicate InEnum(instance: Json, enums: Json)
  {
    match enums
    case Arr(xs) => exists i :: 0 <= i < |xs| && JsonEq(xs[i], instance)
    case Obj(ms) => instance.Str? && instance.s in Keys(ms)
    case Str(s) => instance.Str? && Occurs(instance.s, s)
    case _ => false
  }

  /** `validate_enum`: one error when the instance is not in `enums`; nothing for an exempt
      null. */
  function ValidateEnum(v: Validator, enums: Json, instance: Json, schema: Json): (errs: seq<ValidationError>)
    ensures |errs| <= 1
    ensures errs != [] ==> errs[0] == NotInEnum(instance, enums)
  {
    if NullExempt(instance, schema) || InEnum(instance, enums) then [] else [NotInEnum(instance, enums)]
  }

  /** For a list of allowed values, the instance passes exactly when it equals one of them
      as Python compares values; in particular every listed value passes. */
  lemma EnumList(v: Validator, xs: seq<Json>, instance: Json, schema: Json)
    requires !NullExempt(instance, schema)
    ensures ValidateEnum(v, Arr(xs), instance, schema) == [] <==> exists i :: 0 <= i < |xs| && JsonEq(instance, xs[i])
    ensures instance in xs ==> ValidateEnum(v, Arr(xs), instance, schema) == []
  {
    if exists i :: 0 <= i < |xs| && JsonEq(instance, xs[i]) {
      var i :| 0 <= i < |xs| && JsonEq(instance, xs[i]);
      JsonEqSymm(instance, xs[i]);
    }
    if exists i :: 0 <= i < |xs| && JsonEq(xs[i], instance) {
      var i :| 0 <= i < |xs| && JsonEq(xs[i], instance);
      JsonEqSymm(xs[i], instance);
    }
    if instance in xs {
      var i :| 0 <= i < |xs| && xs[i] == instance;
      JsonEqRefl(instance);
    }
  }

  /** A mapping instance passes against an allowed mapping listing the same members in
      another order, since dictionaries compare without regard to key order. */
  lemma ExampleEnumKeyOrder(v: Validator, schema: Json)
    ensures ValidateEnum(v, Arr([Obj([("b", Int(2)), ("a", Int(1))])]), Obj([("a", Int(1)), ("b", Int(2))]), schema) == []
  {
    var allowed := [("b", Int(2)), ("a", Int(1))];
    var given := [("a", Int(1)), ("b", Int(2))];
    assert Keys(allowed) == ["b", "a"];
    assert Keys(given) == ["a", "b"];
    assert Find(given, "b") == Some(Int(2));
    assert Find(allowed, "b") == Some(Int(2));
    assert Find(allowed, "a") == Some(Int(1));
    assert JsonEq(Obj(allowed), Obj(given));
    assert [Obj(allowed)][0] == Obj(allowed);
    assert InEnum(Obj(given), Arr([Obj(allowed)]));
  }

  /** For a string `enums`, a string instance passes exactly when it occurs inside it. */
  lemma {:induction false} EnumString(v: Validator, s: string, t: string, schema: Json)
    requires !NullExempt(Str(t), schema)
    ensures ValidateEnum(v, Str(s), Str(t), schema) == [] <==> exists i :: OccursAt(t, s, i)
  {
    OccursSomewhere(t, s);
  }

  /* ------------------------------------------------------------ required */

  /** `prop in instance` for a mapping instance. */
  predicate Present(instance: Json, prop: Json)
  {
    prop.Str? && Has(instance, prop.s)
  }

  /** `schema.get('properties').get(prop)` when that is a subschema (neither missing nor
      null). */
  function PropertySchema(schema: Json, prop: Json): (sub: Option<Json>)
    ensures sub.Some? ==> sub.value != Null
  {
    match Get(schema, "properties")
    case Some(Obj(ms)) =>
      if prop.Str? then
        match Find(ms, prop.s)
        case Some(Null) => None
        case found => found
      else None
    case _ => None
  }

  /** A missing required property is let off when its subschema marks it read-only or
      write-only and the validator registers the matching keyword. */
  predicate Exempt(v: Validator, schema: Json, prop: Json)
  {
    match PropertySchema(schema, prop)
    case None => false
    case Some(sub) =>
      ("readOnly" in v.keywords && TruthyGet(sub, "readOnly"))
      || ("writeOnly" in v.keywords && TruthyGet(sub, "writeOnly"))
      || ("x-writeOnly" in v.keywords && IsTrueGet(sub, "x-writeOnly"))
  }

  /** The loop over `required`: one error per listed name, in list order. */
  function MissingErrors(v: Validator, props: seq<Json>, instance: Json, schema: Json): (errs: seq<ValidationError>)
    ensures |errs| <= |props|
  {
    if props == [] then []
    else
      var p := props[0];
      (if !Present(instance, p) && !Exempt(v, schema, p) then [RequiredMissing(p)] else [])
      + MissingErrors(v, props[1..], instance, schema)
  }

  /** The errors of a concatenated list are the errors of each part, in order. */
  lemma {:induction false} MissingErrorsAppend(v: Validator, a: seq<Json>, b: seq<Json>, instance: Json, schema: Json)
    ensures MissingErrors(v, a + b, instance, schema) == MissingErrors(v, a, instance, schema) + MissingErrors(v, b, instance, schema)
  {
    if a == [] {
      assert a + b == b;
    } else {
      assert (a + b)[0] == a[0];
      assert (a + b)[1..] == a[1..] + b;
      MissingErrorsAppend(v, a[1..], b, instance, schema);
    }
  }

  /** Every error names a listed property that is absent and not exempt, and every such
      property is named. */
  lemma {:induction false} MissingErrorsExactly(v: Validator, props: seq<Json>, instance: Json, schema: Json)
    ensures forall e :: e in MissingErrors(v, props, instance, schema) ==> e.RequiredMissing?
    ensures forall p :: RequiredMissing(p) in MissingErrors(v, props, instance, schema) <==>
      p in props && !Present(instance, p) && !Exempt(v, schema, p)
  {
    if props != [] {
      MissingErrorsExactly(v, props[1..], instance, schema);
      forall p ensures p in props <==> p == props[0] || p in props[1..] {
        assert props == [props[0]] + props[1..];
      }
    }
  }

  /** `validate_required`: nothing for an instance that is not an object; otherwise the
      missing, non-exempt names in list order. There is no nullable short-circuit. */
  function ValidateRequired(v: Validator, required: Json, instance: Json, schema: Json): (errs: seq<ValidationError>)
    ensures !v.engine.isType(instance, Str("object")) ==> errs == []
    ensures |errs| <= |Iterate(required)|
  {
    if !v.engine.isType(instance, Str("object")) then []
    else MissingErrors(v, Iterate(required), instance, schema)
  }

  /** For an object instance, a property is reported exactly when it is listed, absent and
      not exempt, and nothing else is reported. */
  lemma RequiredReports(v: Validator, required: Json, instance: Json, schema: Json, p: Json)
    requires v.engine.isType(instance, Str("object"))
    ensures forall e :: e in ValidateRequired(v, required, instance, schema) ==> e.RequiredMissing?
    ensures RequiredMissing(p) in ValidateRequired(v, required, instance, schema) <==>
      p in Iterate(required) && !Present(instance, p) && !Exempt(v, schema, p)
  {
    MissingErrorsExactly(v, Iterate(required), instance, schema);
  }

  /** A listed name whose subschema says `readOnly: true` is exempt exactly when the
      validator registers `readOnly`. */
  lemma {:induction false} ReadOnlyExemption(v: Validator, name: string, instance: Json)
    requires v.engine.isType(instance, Str("object"))
    requires !Has(instance, name)
    ensures var schema := Obj([("properties", Obj([(name, Obj([("readOnly", Bool(true))]))]))]);
      ValidateRequired(v, Arr([Str(name)]), instance, schema) ==
        if "readOnly" in v.keywords then [] else [RequiredMissing(Str(name))]
  {
    var schema := Obj([("properties", Obj([(name, Obj([("readOnly", Bool(true))]))]))]);
    assert PropertySchema(schema, Str(name)) == Some(Obj([("readOnly", Bool(true))]));
    assert MissingErrors(v, [Str(name)][1..], instance, schema) == [];
  }

  /** A listed name whose subschema says `writeOnly: true` is exempt exactly when the
      validator registers `writeOnly`. */
  lemma {:induction false} WriteOnlyExemption(v: Validator, name: string, instance: Json)
    requires v.engine.isType(instance, Str("object"))
    requires !Has(instance, name)
    ensures var schema := Obj([("properties", Obj([(name, Obj([("writeOnly", Bool(true))]))]))]);
      ValidateRequired(v, Arr([Str(name)]), instance, schema) ==
        if "writeOnly" in v.keywords then [] else [RequiredMissing(Str(name))]
  {
    var schema := Obj([("properties", Obj([(name, Obj([("writeOnly", Bool(true))]))]))]);
    assert PropertySchema(schema, Str(name)) == Some(Obj([("writeOnly", Bool(true))]));
    assert MissingErrors(v, [Str(name)][1..], instance, schema) == [];
  }

  /** `x-writeOnly` must be exactly `true`: a truthy non-boolean does not exempt. */
  lemma {:induction false} XWriteOnlyNeedsTrue(v: Validator, name: string, instance: Json)
    requires v.engine.isType(instance, Str("object"))
    requires !Has(instance, name)
    ensures var schema := Obj([("properties", Obj([(name, Obj([("x-writeOnly", Int(1))]))]))]);
      ValidateRequired(v, Arr([Str(name)]), instance, schema) == [RequiredMissing(Str(name))]
  {
    var schema := Obj([("properties", Obj([(name, Obj([("x-writeOnly", Int(1))]))]))]);
    assert PropertySchema(schema, Str(name)) == Some(Obj([("x-writeOnly", Int(1))]));
    assert MissingErrors(v, [Str(name)][1..], instance, schema) == [];
  }

  /* ------------------------------------------------- readOnly, writeOnly */

  /** `validate_readOnly`: exactly one error, whatever the keyword's value. */
  function ValidateReadOnly(v: Validator, ro: Json, instance: Json, schema: Json): (errs: seq<ValidationError>)
    ensures |errs| == 1 && errs[0] == ReadOnlyProperty
  {
    [ReadOnlyProperty]
  }

  /** `validate_writeOnly`: exactly one error, whatever the keyword's value. */
  function ValidateWriteOnly(v: Validator, wo: Json, instance: Json, schema: Json): (errs: seq<ValidationError>)
    ensures |errs| == 1 && errs[0] == WriteOnlyProperty
  {
    [WriteOnlyProperty]
  }

  /* ---------------------------------------------------------- properties */

  /** The loop over the declared properties: each one present in the instance is descended
      into, at its own path. */
  function PropertyErrors(e: Engine, declared: Members, instance: Json): (errs: seq<ValidationError>)
    ensures !instance.Obj? ==> errs == []
  {
    if declared == [] then []
    else
      var name := declared[0].0;
      (match Get(instance, name)
       case Some(value) => e.descend(value, declared[0].1, Some(Key(name)), Key(name))
       case None => [])
      + PropertyErrors(e, declared[1..], instance)
  }

  /** Declaration order is error order: the errors for concatenated declarations are the
      concatenated errors. */
  lemma {:induction false} PropertyErrorsAppend(e: Engine, a: Members, b: Members, instance: Json)
    ensures PropertyErrors(e, a + b, instance) == PropertyErrors(e, a, instance) + PropertyErrors(e, b, instance)
  {
    if a == [] {
      assert a + b == b;
    } else {
      assert (a + b)[0] == a[0];
      assert (a + b)[1..] == a[1..] + b;
      PropertyErrorsAppend(e, a[1..], b, instance);
    }
  }

  /** Only the declared keys of the instance matter: undeclared keys are ignored. */
  lemma {:induction false} PropertyErrorsReadDeclared(e: Engine, declared: Members, i1: Json, i2: Json)
    requires forall k :: k in Keys(declared) ==> Get(i1, k) == Get(i2, k)
    ensures PropertyErrors(e, declared, i1) == PropertyErrors(e, declared, i2)
  {
    if declared != [] {
      assert Keys(declared) == [declared[0].0] + Keys(declared[1..]);
      PropertyErrorsReadDeclared(e, declared[1..], i1, i2);
    }
  }

  /** No errors exactly when every declared property present in the instance descends
      cleanly. */
  lemma {:induction false} PropertyErrorsEmpty(e: Engine, declared: Members, instance: Json)
    ensures PropertyErrors(e, declared, instance) == [] <==>
      forall i :: 0 <= i < |declared| && Get(instance, declared[i].0).Some? ==>
        e.descend(Get(instance, declared[i].0).value, declared[i].1, Some(Key(declared[i].0)), Key(declared[i].0)) == []
  {
    if declared != [] {
      PropertyErrorsEmpty(e, declared[1..], instance);
      forall i | 1 <= i < |declared| ensures declared[1..][i - 1] == declared[i] {
      }
    }
  }

  /** `validate_properties`: nothing for an exempt null or a non-object; otherwise the
      declared properties' errors. */
  function ValidateProperties(v: Validator, properties: Json, instance: Json, schema: Json): (errs: seq<ValidationError>)
    ensures !v.engine.isType(instance, Str("object")) ==> errs == []
  {
    if NullExempt(instance, schema) then []
    else if !v.engine.isType(instance, Str("object")) then []
    else PropertyErrors(v.engine, Entries(properties), instance)
  }

  /** An exempt null yields nothing from `type`, `enum` and `properties`. */
  lemma NullableShortCircuit(v: Validator, value: Json, schema: Json)
    requires NullExempt(Null, schema)
    ensures ValidateType(v, value, Null, schema) == []
    ensures ValidateEnum(v, value, Null, schema) == []
    ensures ValidateProperties(v, value, Null, schema) == []
  {
  }
}
