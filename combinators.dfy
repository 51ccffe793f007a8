/** The handlers that combine subschemas: `oneOf` and `allOf`
    (connexion/json_schema.py, lines 103-134). */
module Combinators {
  import opened Wrappers
  import opened Json
  import opened Validation

  /* --------------------------------------------------------------- oneOf */

  /** The errors of descending into subschema `i`, at schema path `i`. */
  function SubErrors(e: Engine, instance: Json, subs: seq<Json>, i: nat): seq<ValidationError>
    requires i < |subs|
  {
    e.descend(instance, subs[i], None, Index(i))
  }

  /** The first subschema at or after `from` that the instance passes, if any. */
  function FirstValidFrom(e: Engine, instance: Json, subs: seq<Json>, from: nat): (r: Option<nat>)
    requires from <= |subs|
    ensures r.Some? ==> from <= r.value < |subs| && SubErrors(e, instance, subs, r.value) == []
    ensures r.Some? ==> forall j :: from <= j < r.value ==> SubErrors(e, instance, subs, j) != []
    ensures r.None? ==> forall j :: from <= j < |subs| ==> SubErrors(e, instance, subs, j) != []
    decreases |subs| - from
  {
    if from == |subs| then None
    else if SubErrors(e, instance, subs, from) == [] then Some(from)
    else FirstValidFrom(e, instance, subs, from + 1)
  }

  /** `all_errors` once the first `n` subschemas have failed. */
  function Collected(e: Engine, instance: Json, subs: seq<Json>, n: nat): seq<ValidationError>
    requires n <= |subs|
  {
    if n == 0 then [] else Collected(e, instance, subs, n - 1) + SubErrors(e, instance, subs, n - 1)
  }

  /** The subschemas at positions `lo` up to (not including) `hi` that `is_valid`
      accepts, in order. */
  function ValidBetween(e: Engine, instance: Json, subs: seq<Json>, lo: nat, hi: nat): (r: seq<Json>)
    requires lo <= hi <= |subs|
    ensures |r| <= hi - lo
    decreases hi
  {
    if hi == lo then []
    else
      ValidBetween(e, instance, subs, lo, hi - 1)
      + (if e.isValid(instance, subs[hi - 1]) then [subs[hi - 1]] else [])
  }

  /** `more_valid` holds exactly the subschemas in the range that `is_valid` accepts. */
  lemma {:induction false} ValidBetweenMembers(e: Engine, instance: Json, subs: seq<Json>, lo: nat, hi: nat)
    requires lo <= hi <= |subs|
    ensures forall s :: s in ValidBetween(e, instance, subs, lo, hi) <==>
              exists k :: lo <= k < hi && subs[k] == s && e.isValid(instance, s)
    decreases hi
  {
    if hi != lo {
      ValidBetweenMembers(e, instance, subs, lo, hi - 1);
      var before := ValidBetween(e, instance, subs, lo, hi - 1);
      var last := if e.isValid(instance, subs[hi - 1]) then [subs[hi - 1]] else [];
      assert ValidBetween(e, instance, subs, lo, hi) == before + last;
      assert forall s :: s in before + last <==> s in before || s in last;
    }
  }

  lemma {:induction false} ValidBetweenEmpty(e: Engine, instance: Json, subs: seq<Json>, lo: nat, hi: nat)
    requires lo <= hi <= |subs|
    ensures ValidBetween(e, instance, subs, lo, hi) == [] <==>
              (forall k :: lo <= k < hi ==> !e.isValid(instance, subs[k]))
    decreases hi
  {
    if hi != lo {
      ValidBetweenEmpty(e, instance, subs, lo, hi - 1);
    }
  }

  /** What `validate_oneOf` yields once the nullable short-circuit has not applied. No
      subschema passing gives one error carrying every subschema's errors; otherwise the
      errors before the first passing one are dropped, and the later subschemas `is_valid`
      accepts, followed by the first passing one, make a second kind of error. */
  function OneOfOutcome(e: Engine, subs: seq<Json>, instance: Json): seq<ValidationError>
  {
    match FirstValidFrom(e, instance, subs, 0)
    case None => [NoneValid(instance, Collected(e, instance, subs, |subs|))]
    case Some(i) =>
      var more := ValidBetween(e, instance, subs, i + 1, |subs|);
      if more == [] then [] else [ManyValid(instance, more + [subs[i]])]
  }

  /** What `validate_oneOf` yields. */
  function OneOfErrors(v: Validator, oneOf: Json, instance: Json, schema: Json): seq<ValidationError>
  {
    if NullExempt(instance, schema) then [] else OneOfOutcome(v.engine, Iterate(oneOf), instance)
  }

  /** `validate_oneOf`: the first loop stops at the first subschema that descends cleanly;
      the comprehension then resumes the same iterator after it. */
  method ValidateOneOf(v: Validator, oneOf: Json, instance: Json, schema: Json) returns (errs: seq<ValidationError>)
    ensures errs == OneOfErrors(v, oneOf, instance, schema)
  {
    if NullExempt(instance, schema) {
      return [];
    }
    var subs := Iterate(oneOf);
    var allErrors, i, found := FirstValid(v.engine, instance, subs);
    errs := [];
    if !found {
      errs := [NoneValid(instance, allErrors)];
    }
    var start: nat := if found then i + 1 else |subs|;
    var moreValid := MoreValid(v.engine, instance, subs, start);
    if moreValid != [] {
      errs := errs + [ManyValid(instance, moreValid + [subs[i]])];
    }
    assert errs == OneOfOutcome(v.engine, subs, instance);
  }

  /** The first loop of `validate_oneOf`: descend into each subschema in turn, collecting
      the errors, until one descends cleanly (`break`) or none is left (`else`). */
  method FirstValid(e: Engine, instance: Json, subs: seq<Json>) returns (allErrors: seq<ValidationError>, i: nat, found: bool)
    ensures i <= |subs|
    ensures found ==> FirstValidFrom(e, instance, subs, 0) == Some(i)
    ensures !found ==> FirstValidFrom(e, instance, subs, 0) == None && i == |subs|
                       && allErrors == Collected(e, instance, subs, |subs|)
  {
    allErrors := [];
    i := 0;
    found := false;
    while i < |subs|
      invariant 0 <= i <= |subs|
      invariant allErrors == Collected(e, instance, subs, i)
      invariant FirstValidFrom(e, instance, subs, i) == FirstValidFrom(e, instance, subs, 0)
    {
      var subErrors := e.descend(instance, subs[i], None, Index(i));
      if subErrors == [] {
        found := true;
        return;
      }
      allErrors := allErrors + subErrors;
      i := i + 1;
    }
  }

  /** Line 121: the comprehension resumes the shared iterator at `start` and keeps the
      subschemas `is_valid` accepts. */
  method MoreValid(e: Engine, instance: Json, subs: seq<Json>, start: nat) returns (moreValid: seq<Json>)
    requires start <= |subs|
    ensures moreValid == ValidBetween(e, instance, subs, start, |subs|)
  {
    moreValid := [];
    var j := start;
    while j < |subs|
      invariant start <= j <= |subs|
      invariant moreValid == ValidBetween(e, instance, subs, start, j)
    {
      if e.isValid(instance, subs[j]) {
        moreValid := moreValid + [subs[j]];
      }
      j := j + 1;
    }
  }

  /** `oneOf` yields at most one error. */
  lemma OneOfAtMostOne(e: Engine, subs: seq<Json>, instance: Json)
    ensures |OneOfOutcome(e, subs, instance)| <= 1
  {
  }

  /** An exempt null passes `oneOf`. */
  lemma OneOfNullable(v: Validator, oneOf: Json, schema: Json)
    requires NullExempt(Null, schema)
    ensures OneOfErrors(v, oneOf, Null, schema) == []
  {
  }

  /** The one error carrying every subschema's errors, in order, is yielded exactly when no
      subschema passes. */
  lemma OneOfNoneValid(e: Engine, subs: seq<Json>, instance: Json)
    ensures OneOfOutcome(e, subs, instance) == [NoneValid(instance, Collected(e, instance, subs, |subs|))]
      <==> forall j :: 0 <= j < |subs| ==> SubErrors(e, instance, subs, j) != []
  {
    var r := FirstValidFrom(e, instance, subs, 0);
    if r.Some? {
      assert !(forall j :: 0 <= j < |subs| ==> SubErrors(e, instance, subs, j) != []) by {
        assert SubErrors(e, instance, subs, r.value) == [];
      }
    }
  }

  /** Once subschema `i` is the first to pass, the errors before it are dropped, and a
      second error is yielded exactly when a later subschema is accepted by `is_valid`. */
  lemma {:induction false} OneOfAfterFirstValid(e: Engine, subs: seq<Json>, instance: Json, i: nat)
    requires FirstValidFrom(e, instance, subs, 0) == Some(i)
    ensures OneOfOutcome(e, subs, instance) == [] <==>
      forall k :: i < k < |subs| ==> !e.isValid(instance, subs[k])
    ensures forall err :: err in OneOfOutcome(e, subs, instance) ==> err.ManyValid?
  {
    ValidBetweenEmpty(e, instance, subs, i + 1, |subs|);
  }

  /** Subschema `j` is the only one `is_valid` accepts. */
  predicate OnlyValid(e: Engine, instance: Json, subs: seq<Json>, j: int)
  {
    0 <= j < |subs| && e.isValid(instance, subs[j]) &&
    forall k :: 0 <= k < |subs| && k != j ==> !e.isValid(instance, subs[k])
  }

  lemma CoherentSubErrors(e: Engine, instance: Json, subs: seq<Json>)
    requires Coherent(e)
    ensures forall k :: 0 <= k < |subs| ==> (SubErrors(e, instance, subs, k) == []) == e.isValid(instance, subs[k])
  {
    forall k | 0 <= k < |subs| ensures (SubErrors(e, instance, subs, k) == []) == e.isValid(instance, subs[k]) {
    }
  }

  /** For an engine whose `is_valid` agrees with `descend`, `oneOf` passes exactly when
      one subschema, and only one, is valid. */
  lemma {:induction false} OneOfExactlyOne(e: Engine, subs: seq<Json>, instance: Json)
    requires Coherent(e)
    ensures OneOfOutcome(e, subs, instance) == [] <==> exists j :: OnlyValid(e, instance, subs, j)
  {
    CoherentSubErrors(e, instance, subs);
    var first := FirstValidFrom(e, instance, subs, 0);
    if first.None? {
      forall j | 0 <= j < |subs| ensures !OnlyValid(e, instance, subs, j) {
        assert SubErrors(e, instance, subs, j) != [];
      }
    } else {
      var i := first.value;
      var more := ValidBetween(e, instance, subs, i + 1, |subs|);
      ValidBetweenEmpty(e, instance, subs, i + 1, |subs|);
      if more == [] {
        forall k | 0 <= k < i ensures !e.isValid(instance, subs[k]) {
          assert SubErrors(e, instance, subs, k) != [];
        }
        assert OnlyValid(e, instance, subs, i);
      } else {
        var k :| i < k < |subs| && e.isValid(instance, subs[k]);
        forall j | 0 <= j < |subs| ensures !OnlyValid(e, instance, subs, j) {
          if j == i {
            assert k != j;
          } else {
            assert e.isValid(instance, subs[i]);
          }
        }
      }
    }
  }

  /* --------------------------------------------------------------- allOf */

  /** The schema `validate_allOf` has built after updating an empty mapping with the first
      `n` subschemas. */
  function MergeAll(subs: seq<Json>, n: nat): Members
    requires n <= |subs|
  {
    if n == 0 then [] else Merge(MergeAll(subs, n - 1), Entries(subs[n - 1]))
  }

  /** The value the last of the first `n` subschemas gives `k`, if any gives it one. */
  function LastWith(subs: seq<Json>, n: nat, k: string): Option<Json>
    requires n <= |subs|
  {
    if n == 0 then None
    else if k in Keys(Entries(subs[n - 1])) then Find(Entries(subs[n - 1]), k)
    else LastWith(subs, n - 1, k)
  }

  /** In the merged schema, every key holds the value of the last subschema giving it one. */
  lemma {:induction false} MergeAllLaterWins(subs: seq<Json>, n: nat, k: string)
    requires n <= |subs|
    requires forall j {:trigger UniqueKeys(Entries(subs[j]))} :: 0 <= j < |subs| ==> UniqueKeys(Entries(subs[j]))
    ensures Find(MergeAll(subs, n), k) == LastWith(subs, n, k)
  {
    if n > 0 {
      var last := Entries(subs[n - 1]);
      assert UniqueKeys(last);
      MergeAllStep(subs, n, k);
      if k in Keys(last) {
        assert LastWith(subs, n, k) == Find(last, k);
      } else {
        MergeAllLaterWins(subs, n - 1, k);
        assert LastWith(subs, n, k) == LastWith(subs, n - 1, k);
      }
    }
  }

  lemma MergeAllStep(subs: seq<Json>, n: nat, k: string)
    requires 0 < n <= |subs|
    requires UniqueKeys(Entries(subs[n - 1]))
    ensures Find(MergeAll(subs, n), k) ==
      if k in Keys(Entries(subs[n - 1])) then Find(Entries(subs[n - 1]), k) else Find(MergeAll(subs, n - 1), k)
  {
    MergeFind(MergeAll(subs, n - 1), Entries(subs[n - 1]), k);
  }

  /** The schemas `validate_allOf` descends with, in order: the `k`-th is the merge of
      subschemas `0` to `k`. */
  function CumulativeSchemas(subs: seq<Json>): (schemas: seq<Json>)
  {
    seq(|subs|, k requires 0 <= k < |subs| => Obj(MergeAll(subs, k + 1)))
  }

  /** The errors of descending into the first `n` of `schemas`, the `k`-th at schema path
      `k`, one after the other. */
  function DescendAll(e: Engine, schemas: seq<Json>, instance: Json, n: nat): seq<ValidationError>
    requires n <= |schemas|
  {
    if n == 0 then [] else DescendAll(e, schemas, instance, n - 1) + e.descend(instance, schemas[n - 1], None, Index(n - 1))
  }

  /** What `validate_allOf` yields. */
  function AllOfErrors(e: Engine, allOf: Json, instance: Json): seq<ValidationError>
  {
    var schemas := CumulativeSchemas(Iterate(allOf));
    DescendAll(e, schemas, instance, |schemas|)
  }

  /** `validate_allOf`: one descend per subschema, each against the merge of that
      subschema and all before it; the enclosing schema plays no part. */
  method ValidateAllOf(v: Validator, allOf: Json, instance: Json, schema: Json) returns (errs: seq<ValidationError>)
    ensures errs == AllOfErrors(v.engine, allOf, instance)
  {
    var subs := Iterate(allOf);
    ghost var schemas := CumulativeSchemas(subs);
    var merged: Members := [];
    errs := [];
    var i := 0;
    while i < |subs|
      invariant 0 <= i <= |subs|
      invariant merged == MergeAll(subs, i)
      invariant errs == DescendAll(v.engine, schemas, instance, i)
    {
      merged := Merge(merged, Entries(subs[i]));
      errs := errs + v.engine.descend(instance, Obj(merged), None, Index(i));
      i := i + 1;
    }
  }

  /** The descends pass together exactly when each passes. */
  lemma {:induction false} DescendAllEmpty(e: Engine, schemas: seq<Json>, instance: Json, n: nat)
    requires n <= |schemas|
    ensures DescendAll(e, schemas, instance, n) == [] <==>
              (forall k :: 0 <= k < n ==> e.descend(instance, schemas[k], None, Index(k)) == [])
  {
    if n > 0 {
      DescendAllEmpty(e, schemas, instance, n - 1);
    }
  }

  /** `allOf` passes exactly when every cumulative descend passes. */
  lemma AllOfPasses(e: Engine, allOf: Json, instance: Json)
    ensures var schemas := CumulativeSchemas(Iterate(allOf));
      AllOfErrors(e, allOf, instance) == [] <==>
        forall k :: 0 <= k < |schemas| ==> e.descend(instance, schemas[k], None, Index(k)) == []
  {
    var schemas := CumulativeSchemas(Iterate(allOf));
    DescendAllEmpty(e, schemas, instance, |schemas|);
  }

  /** Merging `{"a": 1}`, `{"b": 2}`, `{"a": 3}`: `a` keeps its first position and takes
      the last value. */
  lemma ExampleMergeAll()
    ensures MergeAll([Obj([("a", Int(1))]), Obj([("b", Int(2))]), Obj([("a", Int(3))])], 3)
         == [("a", Int(3)), ("b", Int(2))]
  {
    var subs := [Obj([("a", Int(1))]), Obj([("b", Int(2))]), Obj([("a", Int(3))])];
    assert MergeAll(subs, 1) == [("a", Int(1))];
    assert MergeAll(subs, 2) == [("a", Int(1)), ("b", Int(2))];
  }
}
