# connexion JSON-schema core in Dafny

This project models `connexion/json_schema.py`, the part of connexion that prepares OpenAPI
schemas and validates request and response bodies against them. It has three parts.

- **`resolve_refs`** (module `Resolver`, with `Pointer` and `Json`) deep-copies a schema
  document and rewrites each `{"$ref": ...}` mapping in it.
  - A local reference is looked up with the path `ref[2:].split("/")`. The node is
    `update`d with its target, `$ref` is deleted, and the node is returned without being
    walked further. Like `dict.update`, the model accepts a mapping, a list of key/value
    pairs, or an empty string as the target.
  - A path that cannot be found goes to the external resolver. Here that resolver is a
    parameter, `fetch`. The resolver is built over the copy at line 33, so `fetch` is also
    handed the copy as it stands at that moment.
  - Other mappings and lists are rewritten child by child. Scalars pass through.
  - The lookup reads the copy as it stands mid-walk, so members already visited hold their
    rewritten values. The model keeps the copy as a value and tracks the current node's
    place in it with a zipper (`Ctx`, `Plug`).
  - `Walk` is the specification. The methods `DoResolve`, `ResolveMembers` and
    `ResolveItems` follow the source's loops and are proved equal to it.
- **The keyword handlers** (modules `Validation`, `Keywords` and `Combinators`):
  `type`, `enum`, `required`, `readOnly`, `writeOnly`, `oneOf`, `allOf` and `properties`.
  - Each handler maps the keyword's value, the instance and the enclosing schema to the
    sequence of errors it yields.
  - The Draft 4 engine they call back into is a datatype of functions (`Engine`):
    `is_type`, `descend`, `is_valid`, and the Draft 4 handlers of the other keywords.
  - A validator is that engine together with the set of keywords its table registers.
  - `validate_oneOf` and `validate_allOf` keep mutable locals in loops, so they are methods.
    Each is proved equal to a specification function, and the properties are proved about
    that function.
- **The two keyword tables** (module `Tables`): `Draft4RequestValidator` and
  `Draft4ResponseValidator`, each the Draft 4 table with connexion's handlers laid over it.
  - The Draft 4 base registers none of `readOnly`, `writeOnly` or `x-writeOnly`. So
    `readOnly` is registered only for requests, and the other two only for responses.
  - That registration is what switches the exemptions of `validate_required` on and off.

JSON values are a datatype: null, booleans, integers, strings, lists, and mappings as
ordered association lists. Python's `d[k] = v`, `d.update(o)`, `del d[k]` and `d.get(k)`
are `Put`, `Merge`, `Delete` and `Find`. A key that is updated keeps its position, and a new
key goes last.

Two readings that the code does not follow are worth ruling out.

- A resolver could look local references up in the original, unresolved document and walk
  the merged result again. This code does neither. `spec` is rebound to the copy at line 30,
  so the lookup at line 40 reads the partially rewritten copy. The merged node is returned
  at line 42 without being walked. `Resolver.ExampleLookupSeesRewrites` shows a document
  where the two readings differ. Looked up in the original, `b` would merge in
  `{"$ref": "#/c"}`, drop `$ref` and end up `{}`. Here it ends up `{"x": 1}`.
- The exemptions of `validate_required` could be read as the read-only one applying to
  responses. In the code it applies when `readOnly` is registered, which is only in the
  request table (line 157). The write-only exemptions apply only in the response table
  (lines 165-166). `Tables.RequiredInRequest` and `Tables.RequiredInResponse` state this
  behaviour.

## Model

| member | source | states |
|---|---|---|
| Resolver.ResolveRefs | connexion/json_schema.py:24-56 | `resolve_refs(spec)` returns exactly what walking the copy from its root gives (`Resolve`) |
| Resolver.Resolve | connexion/json_schema.py:55 | `resolve_refs` walks the copy from its root. An unresolvable error is one the external resolver raised for the copy and reference it names. |
| Resolver.DoResolve | connexion/json_schema.py:35-53 | `_do_resolve`, with its in-place member and item loops, returns exactly `Walk(node, ctx)` |
| Resolver.ResolveMembers | connexion/json_schema.py:47-49 | the `node[k] = _do_resolve(v)` loop yields exactly `WalkMembers` from the first member, each member resolved with the earlier ones already rewritten |
| Resolver.ResolveItems | connexion/json_schema.py:50-52 | the `node[i] = _do_resolve(node[i])` loop yields exactly `WalkItems` from the first item |
| Resolver.ResolveRef | connexion/json_schema.py:36-46 | a `$ref` node fails as unresolvable only when the external resolver, handed the copy as it stands and the node's own `$ref` string, cannot produce the referenced document; a non-string `$ref` is the malformed-reference error |
| Resolver.Walk | connexion/json_schema.py:35-53 | anywhere in the tree, an unresolvable error names a reference the external resolver failed on |
| Resolver.WalkMembers | connexion/json_schema.py:47-49 | the same for the member loop |
| Resolver.WalkItems | connexion/json_schema.py:50-52 | the same for the item loop |
| Resolver.WalkShape | connexion/json_schema.py:47-53 | on success, a mapping without `$ref` keeps exactly its keys in order, a list keeps its length, and a scalar is returned unchanged |
| Resolver.WalkMembersKeys | connexion/json_schema.py:47-49 | the member loop rewrites values only: the result's keys are the rewritten prefix's keys followed by the remaining keys |
| Resolver.WalkItemsLength | connexion/json_schema.py:50-52 | the item loop keeps the list's length |
| Resolver.WalkNoRefs | connexion/json_schema.py:47-53 | a subtree with no `$ref` key anywhere comes back equal to itself, wherever it sits in the copy |
| Resolver.WalkMembersNoRefs | connexion/json_schema.py:47-49 | the member loop leaves a reference-free mapping's members as they are |
| Resolver.WalkItemsNoRefs | connexion/json_schema.py:50-52 | the item loop leaves a reference-free list's items as they are |
| Resolver.ResolveNoRefs | connexion/json_schema.py:24-56 | a document without references resolves to a structurally equal document |
| Resolver.LocalRefRewrite | connexion/json_schema.py:36-42 | when the local lookup finds a mapping, the result is a mapping without `$ref`. Every target key holds the target's value, unresolved. Every other key keeps the node's value. |
| Resolver.ExternalRef | connexion/json_schema.py:43-46 | when the local lookup finds nothing, the external resolver is handed the copy as it stands and the reference. The node is replaced by its document, unwalked, or the call fails if it cannot produce one. |
| Resolver.RefNodeBecomesTarget | connexion/json_schema.py:36-42 | a bare `{"$ref": r}` whose target is a mapping without `$ref` becomes exactly that mapping |
| Resolver.ExampleLocalRef | connexion/json_schema.py:36-49 | `{"a":{"value":1},"b":{"$ref":"#/a"}}` resolves to `{"a":{"value":1},"b":{"value":1}}` |
| Resolver.ExampleLookupSeesRewrites | connexion/json_schema.py:40 | `{"a":{"$ref":"#/c"},"b":{"$ref":"#/a"},"c":{"x":1}}` resolves with `a`, `b` and `c` all `{"x":1}`: `b`'s lookup reads `a` after `a` was rewritten |
| Resolver.ExamplePairsTarget | connexion/json_schema.py:40-42 | `{"$ref":"#/a"}` whose target is the list of pairs `[["k",1]]` becomes `{"k":1}`, because `update` accepts pairs |
| Resolver.ExampleNumberTarget | connexion/json_schema.py:40 | a target that `update` cannot take (the number `1`) makes the call fail |
| Pointer.Split | connexion/json_schema.py:37 | `split("/")` gives at least one piece, and no piece contains `/` |
| Pointer.JoinSplit | connexion/json_schema.py:37 | joining the pieces with `/` gives the string back |
| Pointer.SplitJoin | connexion/json_schema.py:37 | splitting a `/`-join of slash-free pieces gives the pieces back |
| Pointer.RefPath | connexion/json_schema.py:37 | the lookup path has at least one slash-free piece, and joining it with `/` gives `ref[2:]` back |
| Pointer.DeepGet | connexion/json_schema.py:40 | the stand-in for `deep_get`: the empty path finds the document itself, and a non-empty path is only followed into mappings and lists |
| Pointer.DeepGetAppend | connexion/json_schema.py:40 | looking up `p + q` is looking up `p`, then `q` in what was found |
| Json.Put | connexion/json_schema.py:40 | `d[k] = v` keeps the key order and appends a new key last |
| Json.PutFind | connexion/json_schema.py:40 | after `d[k] = v`, `k` holds `v` and every other key its old value |
| Json.PutUnique | connexion/json_schema.py:40 | `d[k] = v` keeps the keys distinct |
| Json.Delete | connexion/json_schema.py:41 | after `del d[k]`, `k` is no longer a key |
| Json.DeleteFind | connexion/json_schema.py:41 | `del d[k]` leaves every other key's value unchanged |
| Json.DeleteAppend | connexion/json_schema.py:41 | `del d[k]` is an in-order filter: deleting from a concatenation deletes from each part, in order |
| Json.DeleteSingle | connexion/json_schema.py:41 | a single member stays exactly when its key differs from the deleted one |
| Json.DeleteMembers | connexion/json_schema.py:41 | after `del d[k]` every remaining member was already there, and none of them is under `k` |
| Json.DeleteCons | connexion/json_schema.py:41 | a member in front is dropped when its key is the deleted one and kept in front otherwise |
| Json.MergeFind | connexion/json_schema.py:40 | after `d.update(o)`, a key of `o` holds `o`'s value and every other key keeps its value |
| Json.MergeFresh | connexion/json_schema.py:40 | updating with keys the mapping does not have appends them in order |
| Json.Merge | connexion/json_schema.py:40 | `d.update(o)` assigns `o`'s members in turn with `d[k] = v` |
| Json.MergeKeys | connexion/json_schema.py:40 | `d.update(o)` keeps the existing keys in place as a prefix and adds at most one member per member of `o` |
| Json.AsPair | connexion/json_schema.py:40 | an element of a non-mapping `update` argument is a pair when it is a two-item list with a string first, a two-character string, or a two-key mapping |
| Json.AsPairs | connexion/json_schema.py:40 | a list is a valid `update` argument exactly when every item is a pair, giving one member per item |
| Json.UpdatePairs | connexion/json_schema.py:40 | `update` takes a mapping's members, a list of pairs, or an empty string. A non-empty string, a number, a boolean and null make it raise. |
| Json.PutFresh | connexion/json_schema.py:40 | storing a new key appends it |
| Json.DeleteAbsent | connexion/json_schema.py:41 | deleting an absent key changes nothing |
| Json.Find | connexion/json_schema.py:85 | `d.get(k)` finds a value exactly when `k` is a key, and the value is stored under `k` |
| Json.JsonEqRefl | connexion/json_schema.py:73 | Python's `==` on JSON values (`Json.JsonEq`: item by item for lists, same keys and equal values for mappings in any order) holds of every value and itself |
| Json.JsonEqSymm | connexion/json_schema.py:73 | that equality is symmetric, so the direction `in` compares in does not matter |
| Json.FindFirst | connexion/json_schema.py:73 | the value found under a key sits at a position where it is the first under that key |
| Validation.NullExemptFlags | connexion/json_schema.py:60 | `x-nullable` must be the literal `true`, while `nullable` only needs to be truthy, and only a null instance is exempt |
| Validation.NullExempt | connexion/json_schema.py:60 | the nullable short-circuit shared by lines 60, 70, 104 and 137: a null instance whose schema has `x-nullable` exactly `true` or a truthy `nullable` |
| Keywords.EnsureList | connexion/json_schema.py:63 | a single type name becomes a one-element list, and a list is kept as it is |
| Keywords.MatchesSomeExists | connexion/json_schema.py:65 | `any(is_type(instance, t) for t in types)` holds exactly when some listed type matches |
| Keywords.ValidateType | connexion/json_schema.py:59-66 | at most one error, which lists the normalised types. No error exactly when the null is exempt or some declared type matches. |
| Keywords.ScalarType | connexion/json_schema.py:63-66 | a scalar type name is checked as the one-element list holding it |
| Keywords.OccursSomewhere | connexion/json_schema.py:73 | substring search (`str in str`) succeeds exactly when the substring occurs at some position |
| Keywords.InEnum | connexion/json_schema.py:73 | `instance in enums`: membership in a list under Python's `==`, a string key of a mapping, or a substring of a string |
| Keywords.ValidateEnum | connexion/json_schema.py:69-74 | at most one error, and it is "not one of" for this instance and these values |
| Keywords.EnumList | connexion/json_schema.py:73-74 | for a non-exempt instance and a list of values, no error exactly when the instance equals one of them as Python compares values (`JsonEq`); every listed value passes |
| Keywords.ExampleEnumKeyOrder | connexion/json_schema.py:73-74 | `{"a": 1, "b": 2}` passes `enum: [{"b": 2, "a": 1}]`: mappings are compared without regard to key order |
| Keywords.EnumString | connexion/json_schema.py:73-74 | for a string of values and a string instance, no error exactly when the instance is a substring |
| Keywords.PropertySchema | connexion/json_schema.py:83-86 | a property's subschema is one present and not null in `schema.properties` |
| Keywords.Exempt | connexion/json_schema.py:84-92 | a missing property is let off when its subschema exists and has a truthy `readOnly`, a truthy `writeOnly`, or `x-writeOnly` exactly `true`, with that keyword registered |
| Keywords.MissingErrors | connexion/json_schema.py:81-93 | no more errors than listed names |
| Keywords.MissingErrorsAppend | connexion/json_schema.py:81-93 | errors follow list order: the errors for `a + b` are `a`'s errors followed by `b`'s |
| Keywords.MissingErrorsExactly | connexion/json_schema.py:81-93 | every error is a missing-property error, and a name is reported exactly when it is listed, absent and not exempt |
| Keywords.ValidateRequired | connexion/json_schema.py:77-93 | a non-object yields nothing, and there is at most one error per listed name |
| Keywords.RequiredReports | connexion/json_schema.py:77-93 | for an object, a property is reported exactly when it is listed, absent from the instance, and not exempt (subschema present, with readOnly/writeOnly truthy or x-writeOnly exactly true, and that keyword registered) |
| Keywords.ReadOnlyExemption | connexion/json_schema.py:87-88 | a missing `readOnly: true` property is let off exactly when `readOnly` is registered |
| Keywords.WriteOnlyExemption | connexion/json_schema.py:89-90 | a missing `writeOnly: true` property is let off exactly when `writeOnly` is registered |
| Keywords.XWriteOnlyNeedsTrue | connexion/json_schema.py:91-92 | `x-writeOnly: 1` does not exempt, even when `x-writeOnly` is registered |
| Keywords.ValidateReadOnly | connexion/json_schema.py:96-97 | exactly one read-only error, whatever the keyword's value and the instance |
| Keywords.ValidateWriteOnly | connexion/json_schema.py:100-101 | exactly one write-only error, whatever the keyword's value and the instance |
| Keywords.PropertyErrorsAppend | connexion/json_schema.py:143-151 | errors come in declaration order: declarations `a + b` give `a`'s errors followed by `b`'s |
| Keywords.PropertyErrorsReadDeclared | connexion/json_schema.py:143-151 | instances that agree on the declared keys give the same errors, so undeclared keys are ignored |
| Keywords.PropertyErrorsEmpty | connexion/json_schema.py:143-151 | no errors exactly when every declared property present in the instance descends cleanly at its own path |
| Keywords.PropertyErrors | connexion/json_schema.py:143-151 | the loop over declared properties: a non-mapping instance yields nothing; otherwise each declared property present is descended into at its own path |
| Keywords.ValidateProperties | connexion/json_schema.py:136-151 | a non-object instance yields nothing |
| Keywords.NullableShortCircuit | connexion/json_schema.py:60-61 | an exempt null yields nothing from `type`, `enum` and `properties` (lines 60-61, 70-71, 137-138) |
| Combinators.FirstValidFrom | connexion/json_schema.py:109-113 | the index where the first loop stops: it descends cleanly and every earlier subschema fails, or every subschema fails |
| Combinators.ValidBetween | connexion/json_schema.py:121 | the later valid subschemas number at most the subschemas scanned |
| Combinators.ValidBetweenEmpty | connexion/json_schema.py:121-122 | `more_valid` is empty exactly when no subschema after the first valid one passes `is_valid` |
| Combinators.ValidBetweenMembers | connexion/json_schema.py:121 | `more_valid` holds exactly the subschemas after the first valid one that `is_valid` accepts |
| Combinators.OneOfOutcome | connexion/json_schema.py:107-127 | no clean subschema gives one error with every subschema's errors. Otherwise the later `is_valid` subschemas, then the first valid one, make a second kind of error when there are any. |
| Combinators.OneOfErrors | connexion/json_schema.py:103-127 | an exempt null yields nothing; otherwise `OneOfOutcome` over the iterated subschemas |
| Combinators.FirstValid | connexion/json_schema.py:109-119 | the first loop stops exactly at the first subschema that descends cleanly. When none does, it has collected every subschema's errors in order. |
| Combinators.MoreValid | connexion/json_schema.py:121 | the comprehension resuming at `start` yields exactly `ValidBetween(start, len)` |
| Combinators.ValidateOneOf | connexion/json_schema.py:103-127 | the loop with `break`/`else` and the comprehension that resumes the shared iterator yield exactly `OneOfErrors` |
| Combinators.OneOfAtMostOne | connexion/json_schema.py:107-127 | `oneOf` yields at most one error |
| Combinators.OneOfNullable | connexion/json_schema.py:104-105 | an exempt null yields nothing from `oneOf` |
| Combinators.OneOfNoneValid | connexion/json_schema.py:107-119 | the single error, carrying every subschema's errors in order, is yielded exactly when no subschema descends cleanly |
| Combinators.OneOfAfterFirstValid | connexion/json_schema.py:109-127 | once subschema `i` is the first to pass, the earlier errors are dropped. An error appears exactly when a later subschema is valid, and it is the "valid under each of" kind. |
| Combinators.OneOfExactlyOne | connexion/json_schema.py:103-127 | with an engine whose `is_valid` agrees with `descend`, `oneOf` passes exactly when exactly one subschema is valid |
| Combinators.MergeAllLaterWins | connexion/json_schema.py:130-132 | in the cumulative `schema.update(subschema)`, each key holds the value of the last subschema giving it one |
| Combinators.MergeAll | connexion/json_schema.py:130-132 | the schema after `schema.update(subschema)` for the first `n` subschemas, starting from `{}` |
| Combinators.AllOfErrors | connexion/json_schema.py:129-134 | one descend per subschema, the `k`-th against the merge of subschemas `0..k` at schema path `k`, concatenated |
| Combinators.ValidateAllOf | connexion/json_schema.py:129-134 | one descend per subschema at schema path `k`, against the merge of subschemas `0..k`; the enclosing schema plays no part |
| Combinators.DescendAllEmpty | connexion/json_schema.py:133-134 | the chained descends yield nothing exactly when each yields nothing |
| Combinators.AllOfPasses | connexion/json_schema.py:129-134 | `allOf` passes exactly when every cumulative schema passes |
| Combinators.ExampleMergeAll | connexion/json_schema.py:130-132 | `{"a":1}`, `{"b":2}`, `{"a":3}` merge to `{"a":3,"b":2}` |
| Tables.Lookup | connexion/json_schema.py:153-168 | a keyword has a handler exactly when it is registered (a Draft 4 keyword or one of the table's overrides) |
| Tables.Overrides | connexion/json_schema.py:153-168 | the handlers each table installs: six for requests and seven for responses, as listed at lines 154-159 and 162-168 |
| Tables.Registered | connexion/json_schema.py:153-168 | the keys of `extend(Draft4Validator, overrides).VALIDATORS`: the Draft 4 keywords plus the table's overrides |
| Tables.ValidatorFor | connexion/json_schema.py:153-168 | the validator of a table carries the engine and exactly that table's registered keywords |
| Tables.KeywordErrors | connexion/json_schema.py:153-168 | a keyword that neither table registers yields nothing |
| Tables.NotDraft4 | connexion/json_schema.py:153-168 | none of `readOnly`, `writeOnly` or `x-writeOnly` is a Draft 4 keyword |
| Tables.Registration | connexion/json_schema.py:153-168 | `readOnly` is registered only for requests, `writeOnly` and `x-writeOnly` only for responses |
| Tables.MarkerEntries | connexion/json_schema.py:153-168 | the request table maps `readOnly` to its handler and has no `writeOnly`/`x-writeOnly`. The response table maps both to the write-only handler and has no `readOnly`. |
| Tables.ReadOnlyByMode | connexion/json_schema.py:157 | `readOnly` always fails a request and is not checked in a response |
| Tables.WriteOnlyByMode | connexion/json_schema.py:165-166 | `writeOnly` and `x-writeOnly` always fail a response and are not checked in a request |
| Tables.DifferingEntries | connexion/json_schema.py:153-168 | requests use Draft 4's `properties` and connexion's `allOf`, responses the other way round, and both use connexion's `required` |
| Tables.PropertiesByMode | connexion/json_schema.py:167 | `properties` is connexion's handler in responses and Draft 4's in requests |
| Tables.AllOfByMode | connexion/json_schema.py:159 | `allOf` is connexion's cumulative merge in requests and Draft 4's in responses |
| Tables.RequiredEntry | connexion/json_schema.py:156 | both tables run connexion's `required` with their own registered keywords |
| Tables.RequiredInRequest | connexion/json_schema.py:87-90 | in a request, a missing `readOnly: true` property is let off and a missing `writeOnly: true` one is reported |
| Tables.RequiredInResponse | connexion/json_schema.py:87-90 | in a response, a missing `readOnly: true` property is reported and a missing `writeOnly: true` one is let off |

## Left out

- The external resolver (`RefResolver.resolving`, the `UrlHandler` fetchers, the `store` and `handlers` defaults, lines 17-21, 31-33 and 44-46) is library code. Depending on the reference, it does network or file I/O, or reads a fragment of the copy it was built over (for example `#/a~1b`, which line 37 does not unescape). It is the parameter `fetch`. `fetch` receives the copy as it stands and the reference, and gives a document or fails. The library's caching and its `store` are not modelled.
- `deep_get` is in `connexion/utils.py`, which is not part of this model. `Pointer.DeepGet` stands for it: key lookup in mappings, decimal index into lists, and any failure read as the `KeyError` of line 43.
- The Draft 4 engine (`Draft4Validator`, `extend`, its dispatch loop, `is_type`, `descend`, `is_valid` and the handlers of the other keywords) is library code. It is a datatype of function parameters. `oneOf`'s "exactly one" result assumes `is_valid` agrees with `descend` yielding nothing (`Validation.Coherent`).
- Error messages (`types_msg`, the `%r`/`repr` text) are not modelled. Errors are kinds that carry the instance, values, property or subschemas the message would mention. Error paths are the `path`/`schema_path` arguments passed to `descend`.
- Floating-point numbers and Python's mixed equality (`1 == True`, `1 == 1.0`) are out of scope. `Json.JsonEq` compares a boolean only with a boolean and an integer only with an integer; lists compare item by item and mappings as dictionaries, without regard to key order.
- Aliasing is not captured; the model copies by value. It also does not state that the caller's document is unmodified, because value semantics give that for free. Three sources of sharing in the Python copy are therefore lost:
  - `node.update` at line 40 makes the merged node share the target's child objects, so a later in-place rewrite shows through both places.
  - `deepcopy` at line 30 keeps sharing that exists in the input, such as the objects a YAML alias (`&x` / `*x`) stands for twice. Python rewrites such an object once, where it is first reached, and every occurrence shows that rewrite. The model rewrites each occurrence on its own, against the copy as it stands when that occurrence is reached, so the occurrences can come out different. For example, with `X = {"$ref": "#/m"}` shared by `a` and `b` in `{"a": X, "m": {"$ref": "#/n"}, "n": {"w": 2}, "b": X}`, Python leaves `b` as `{}` and the model gives `{"w": 2}`.
  - The external resolver may return an object inside the copy (a fragment such as `#/a~1b`). Python later rewrites that object in place, and the returned node shows it; the model's returned value does not change.
- Keys are strings and mappings are association lists. Non-string keys and unhashable `enum` members are not modelled.
- Iterating a number, boolean or null raises in Python (`required`, `enum`, `oneOf`, `allOf` over such a value). The model iterates them as empty.
- `.get` on a non-mapping raises in Python (for example, `properties.get(prop)` at line 85 when `properties` is a list). The model reads such a lookup as absent.
- `iteritems(properties)` at line 143 raises when `properties` is not a mapping (a list, a string or a number). The model's `validate_properties` yields no errors for such a value.
- `str in str` raises `TypeError` when `enums` is a string and the instance is not. The model treats that as "not in enum".
- `node.update(target)` at line 40 takes a mapping or any iterable of key/value pairs. The model accepts mappings, lists of pairs and the empty string (`Json.UpdatePairs`). A pair whose key is not a string (`[[1, 2]]`) would store a non-string key; the model reports `NotUpdatable` for it instead.
- `schema.update(subschema)` in `validate_allOf` with a non-mapping subschema is a no-op in the model. Python would update from a list of pairs or raise.
- Json.Find: states only that a value is found exactly when the key is present, and that the pair is a member. The value under a duplicate key is the first one. The model's mappings come from Python dicts, where keys are unique.
