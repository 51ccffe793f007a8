/** JSON values as the schema documents and instances hold them, with the handful of Python
    dict operations the resolver and the keyword handlers rely on (`get`, `in`, item
    assignment, `del`, `update`) and Python truthiness. */
module Json {
  import opened Wrappers

  /** A JSON value. An object keeps its members in insertion order, as a Python dict does;
      the documents the core reads have unique keys (see `UniqueKeys`). */
  datatype Json =
    | Null
    | Bool(b: bool)
    | Int(i: int)
    | Str(s: string)
    | Arr(items: seq<Json>)
    | Obj(members: seq<(string, Json)>)

  type Members = seq<(string, Json)>

  /** The keys of an object, in order (`list(d.keys())`). */
  function Keys(ms: Members): (ks: seq<string>)
    ensures |ks| == |ms|
  {
    if ms == [] then [] else [ms[0].0] + Keys(ms[1..])
  }

  /** The `i`-th key is the key of the `i`-th member. */
  lemma {:induction false} KeysAt(ms: Members, i: nat)
    requires i < |ms|
    ensures Keys(ms)[i] == ms[i].0
  {
    if i > 0 {
      KeysAt(ms[1..], i - 1);
    }
  }

  lemma KeysIndex(ms: Members)
    ensures forall i :: 0 <= i < |ms| ==> Keys(ms)[i] == ms[i].0
  {
    forall i | 0 <= i < |ms| ensures Keys(ms)[i] == ms[i].0 {
      KeysAt(ms, i);
    }
  }

  lemma KeysAppend(a: Members, b: Members)
    ensures Keys(a + b) == Keys(a) + Keys(b)
  {
    KeysIndex(a + b);
    KeysIndex(a);
    KeysIndex(b);
    var l := Keys(a + b);
    var r := Keys(a) + Keys(b);
    forall i | 0 <= i < |l| ensures l[i] == r[i] {
      if i < |a| {
        assert (a + b)[i] == a[i];
      } else {
        assert (a + b)[i] == b[i - |a|];
      }
    }
  }

  predicate UniqueKeys(ms: Members)
  {
    forall i, j :: 0 <= i < j < |ms| ==> ms[i].0 != ms[j].0
  }

  /** `d.get(k)`: the value stored under `k`, if any. */
  function Find(ms: Members, k: string): (r: Option<Json>)
    ensures r.Some? <==> k in Keys(ms)
    ensures r.Some? ==> (k, r.value) in ms
  {
    if ms == [] then None
    else if ms[0].0 == k then Some(ms[0].1)
    else Find(ms[1..], k)
  }

  /** Python's `==` on JSON values: lists compare item by item, mappings compare as
      dictionaries (the same keys, equal values under each), whatever their key order. */
  predicate JsonEq(a: Json, b: Json)
    decreases a
  {
    match a
    case Null => b.Null?
    case Bool(x) => b.Bool? && b.b == x
    case Int(x) => b.Int? && b.i == x
    case Str(x) => b.Str? && b.s == x
    case Arr(xs) =>
      b.Arr? && |xs| == |b.items| && forall i :: 0 <= i < |xs| ==> JsonEq(xs[i], b.items[i])
    case Obj(ms) =>
      b.Obj? && (forall j :: 0 <= j < |b.members| ==> b.members[j].0 in Keys(ms)) &&
      forall i :: 0 <= i < |ms| && Find(ms, ms[i].0) == Some(ms[i].1) ==>
        var w := Find(b.members, ms[i].0); w.Some? && JsonEq(ms[i].1, w.value)
  }

  /** Every value equals itself under `JsonEq`. */
  lemma {:induction false} JsonEqRefl(a: Json)
    ensures JsonEq(a, a)
    decreases a
  {
    match a
    case Arr(xs) =>
      forall i | 0 <= i < |xs| ensures JsonEq(xs[i], xs[i]) {
        JsonEqRefl(xs[i]);
      }
    case Obj(ms) =>
      KeysIndex(ms);
      forall i | 0 <= i < |ms| && Find(ms, ms[i].0) == Some(ms[i].1)
        ensures JsonEq(ms[i].1, ms[i].1)
      {
        JsonEqRefl(ms[i].1);
      }
    case _ =>
  }

  /** The value `Find` gives sits at a position where it is the first under its key. */
  lemma FindFirst(ms: Members, k: string) returns (i: nat)
    requires Find(ms, k).Some?
    ensures i < |ms| && ms[i] == (k, Find(ms, k).value)
    ensures Find(ms, ms[i].0) == Some(ms[i].1)
  {
    i :| 0 <= i < |ms| && ms[i] == (k, Find(ms, k).value);
  }

  /** `JsonEq` is symmetric, so `x == e` and `e == x` agree. */
  lemma {:induction false} JsonEqSymm(a: Json, b: Json)
    requires JsonEq(a, b)
    ensures JsonEq(b, a)
    decreases a
  {
    match a
    case Arr(xs) =>
      forall i | 0 <= i < |xs| ensures JsonEq(b.items[i], xs[i]) {
        JsonEqSymm(xs[i], b.items[i]);
      }
    case Obj(ms) =>
      var ns := b.members;
      forall i | 0 <= i < |ms| ensures ms[i].0 in Keys(ns) {
        KeysIndex(ms);
        var i0 := FindFirst(ms, ms[i].0);
        assert Find(ns, ms[i0].0).Some?;
      }
      forall j | 0 <= j < |ns| && Find(ns, ns[j].0) == Some(ns[j].1)
        ensures var w := Find(ms, ns[j].0); w.Some? && JsonEq(ns[j].1, w.value)
      {
        var i0 := FindFirst(ms, ns[j].0);
        JsonEqSymm(ms[i0].1, ns[j].1);
      }
    case _ =>
  }

  /** `d[k] = v`: an existing key keeps its position, a new key goes last. */
  function Put(ms: Members, k: string, v: Json): (r: Members)
    ensures Keys(r) == if k in Keys(ms) then Keys(ms) else Keys(ms) + [k]
  {
    if ms == [] then [(k, v)]
    else if ms[0].0 == k then
      var r := [(k, v)] + ms[1..];
      assert r[1..] == ms[1..];
      r
    else
      var rest := Put(ms[1..], k, v);
      var r := [ms[0]] + rest;
      assert r[1..] == rest;
      r
  }

  /** After `d[k] = v`, `k` holds `v` and every other key what it held before. */
  lemma {:induction false} PutFind(ms: Members, k: string, v: Json, k': string)
    ensures Find(Put(ms, k, v), k') == if k' == k then Some(v) else Find(ms, k')
  {
    if ms != [] && ms[0].0 != k {
      PutFind(ms[1..], k, v, k');
      assert Put(ms, k, v)[1..] == Put(ms[1..], k, v);
    }
  }

  lemma {:induction false} PutUnique(ms: Members, k: string, v: Json)
    requires UniqueKeys(ms)
    ensures UniqueKeys(Put(ms, k, v))
  {
    var r := Put(ms, k, v);
    KeysIndex(r);
    KeysIndex(ms);
    forall i, j | 0 <= i < j < |r| ensures r[i].0 != r[j].0 {
      assert Keys(r)[i] == r[i].0 && Keys(r)[j] == r[j].0;
      if k !in Keys(ms) && j == |ms| {
        assert Keys(ms)[i] == ms[i].0;
      } else {
        assert Keys(ms)[i] == ms[i].0 && Keys(ms)[j] == ms[j].0;
      }
    }
  }

  /** `del d[k]` when `k` is present: every member under `k` goes, the rest keep their order. */
  function Delete(ms: Members, k: string): (r: Members)
    ensures k !in Keys(r)
  {
    if ms == [] then []
    else
      var rest := Delete(ms[1..], k);
      if ms[0].0 == k then rest
      else
        var r := [ms[0]] + rest;
        assert r[1..] == rest;
        r
  }

  /** `del d[k]` keeps only members that were there, none of them under `k`. */
  lemma {:induction false} DeleteMembers(ms: Members, k: string)
    ensures forall x :: x in Delete(ms, k) ==> x in ms && x.0 != k
  {
    if ms != [] {
      DeleteMembers(ms[1..], k);
      assert forall x :: x in ms[1..] ==> x in ms;
    }
  }

  /** A single member stays exactly when its key differs. */
  lemma DeleteSingle(m: (string, Json), k: string)
    ensures Delete([m], k) == if m.0 == k then [] else [m]
  {
    assert [m][1..] == [];
  }

  /** `Delete` is an in-order filter: deleting from a concatenation deletes from each part. */
  lemma {:induction false} DeleteAppend(a: Members, b: Members, k: string)
    ensures Delete(a + b, k) == Delete(a, k) + Delete(b, k)
  {
    if a != [] {
      var x, rest := a[0], a[1..];
      assert a == [x] + rest;
      assert a + b == [x] + (rest + b);
      DeleteCons(x, rest + b, k);
      DeleteCons(x, rest, k);
      DeleteAppend(rest, b, k);
      if x.0 != k {
        assert [x] + (Delete(rest, k) + Delete(b, k)) == ([x] + Delete(rest, k)) + Delete(b, k);
      }
    } else {
      assert a + b == b;
    }
  }

  /** One step of `Delete` on a member put in front. */
  lemma DeleteCons(x: (string, Json), rest: Members, k: string)
    ensures Delete([x] + rest, k) == if x.0 == k then Delete(rest, k) else [x] + Delete(rest, k)
  {
    assert ([x] + rest)[1..] == rest;
  }

  /** After `del d[k]`, every other key holds what it held before. */
  lemma {:induction false} DeleteFind(ms: Members, k: string, k': string)
    requires k' != k
    ensures Find(Delete(ms, k), k') == Find(ms, k')
  {
    if ms != [] {
      DeleteFind(ms[1..], k, k');
      if ms[0].0 != k {
        assert Delete(ms, k)[1..] == Delete(ms[1..], k);
      }
    }
  }

  /** One element of a non-mapping argument of `d.update(...)` read as a key/value pair:
      a two-item list whose first item is a string, a two-character string, or a
      two-key mapping (iterating a mapping visits its keys). Anything else makes `update`
      raise; a pair whose key is not a string is not modelled and also counts as failing. */
  function AsPair(j: Json): (p: Option<(string, Json)>)
    ensures j.Arr? && |j.items| == 2 && j.items[0].Str? ==> p == Some((j.items[0].s, j.items[1]))
    ensures j.Str? && |j.s| == 2 ==> p == Some(([j.s[0]], Str([j.s[1]])))
    ensures !j.Arr? && !j.Str? && !j.Obj? ==> p.None?
  {
    match j
    case Arr(ys) => if |ys| == 2 && ys[0].Str? then Some((ys[0].s, ys[1])) else None
    case Str(s) => if |s| == 2 then Some(([s[0]], Str([s[1]]))) else None
    case Obj(ms) => if |ms| == 2 then Some((ms[0].0, Str(ms[1].0))) else None
    case _ => None
  }

  /** Every item of a list read as a pair, in order; `None` if one of them is not a pair. */
  function AsPairs(xs: seq<Json>): (r: Option<Members>)
    ensures r.Some? ==> |r.value| == |xs|
    ensures r.Some? <==> forall i :: 0 <= i < |xs| ==> AsPair(xs[i]).Some?
  {
    if xs == [] then Some([])
    else
      match AsPair(xs[0])
      case None => None
      case Some(p) =>
        match AsPairs(xs[1..])
        case None =>
          assert forall i :: 1 <= i < |xs| ==> xs[1..][i - 1] == xs[i];
          None
        case Some(rest) =>
          assert forall i :: 1 <= i < |xs| ==> xs[1..][i - 1] == xs[i];
          Some([p] + rest)
  }

  /** What `d.update(arg)` assigns, in order: a mapping's members, or the pairs of a list
      of pairs; an empty string assigns nothing. `None` when `update` raises. */
  function UpdatePairs(arg: Json): (r: Option<Members>)
    ensures arg.Obj? ==> r == Some(arg.members)
    ensures arg.Arr? ==> r == AsPairs(arg.items)
    ensures arg.Str? ==> (r.Some? <==> arg.s == [])
    ensures arg.Null? || arg.Bool? || arg.Int? ==> r.None?
  {
    match arg
    case Obj(ms) => Some(ms)
    case Arr(xs) => AsPairs(xs)
    case Str(s) => if s == [] then Some([]) else None
    case _ => None
  }

  /** `d.update(other)` for a mapping `other`: each of its members is assigned in turn. */
  function Merge(ms: Members, other: Members): (r: Members)
    decreases |other|
  {
    if other == [] then ms
    else Merge(Put(ms, other[0].0, other[0].1), other[1..])
  }

  /** `d.update(other)` keeps the existing keys where they were and adds at most one
      member per member of `other`. */
  lemma {:induction false} MergeKeys(ms: Members, other: Members)
    ensures Keys(ms) <= Keys(Merge(ms, other))
    ensures |Merge(ms, other)| <= |ms| + |other|
    decreases |other|
  {
    if other != [] {
      var next := Put(ms, other[0].0, other[0].1);
      MergeKeys(next, other[1..]);
    }
  }

  /** After `d.update(other)`, a key of `other` holds other's value and every other key
      holds what it held before. */
  lemma {:induction false} MergeFind(ms: Members, other: Members, k: string)
    requires UniqueKeys(other)
    ensures Find(Merge(ms, other), k) == if k in Keys(other) then Find(other, k) else Find(ms, k)
    decreases |other|
  {
    if other != [] {
      var put := Put(ms, other[0].0, other[0].1);
      assert UniqueKeys(other[1..]);
      MergeFind(put, other[1..], k);
      PutFind(ms, other[0].0, other[0].1, k);
      if k == other[0].0 {
        assert k !in Keys(other[1..]);
      }
    }
  }

  /** Updating with members whose keys are all new appends them in order. */
  lemma {:induction false} MergeFresh(ms: Members, other: Members)
    requires UniqueKeys(other)
    requires forall k :: k in Keys(other) ==> k !in Keys(ms)
    ensures Merge(ms, other) == ms + other
    decreases |other|
  {
    if other == [] {
      assert ms + other == ms;
    } else {
      var k0 := other[0].0;
      var put := Put(ms, k0, other[0].1);
      assert Keys(other) == [k0] + Keys(other[1..]);
      PutFresh(ms, k0, other[0].1);
      assert put == ms + [other[0]];
      assert UniqueKeys(other[1..]);
      assert k0 !in Keys(other[1..]) by {
        KeysIndex(other[1..]);
        forall j | 0 <= j < |other[1..]| ensures Keys(other[1..])[j] != k0 {
          assert other[1..][j] == other[j + 1];
        }
      }
      forall k | k in Keys(other[1..]) ensures k !in Keys(put) {
        KeysAppend(ms, [other[0]]);
        assert k in Keys(other);
      }
      MergeFresh(put, other[1..]);
      assert Merge(ms, other) == put + other[1..];
      AppendFirst(ms, other);
    }
  }

  lemma AppendFirst(ms: Members, other: Members)
    requires other != []
    ensures (ms + [other[0]]) + other[1..] == ms + other
  {
    assert [other[0]] + other[1..] == other;
  }

  lemma {:induction false} PutFresh(ms: Members, k: string, v: Json)
    requires k !in Keys(ms)
    ensures Put(ms, k, v) == ms + [(k, v)]
  {
    if ms != [] {
      assert Keys(ms) == [ms[0].0] + Keys(ms[1..]);
      PutFresh(ms[1..], k, v);
      assert [ms[0]] + (ms[1..] + [(k, v)]) == ms + [(k, v)];
    }
  }

  /** Deleting a key that is absent changes nothing. */
  lemma {:induction false} DeleteAbsent(ms: Members, k: string)
    requires k !in Keys(ms)
    ensures Delete(ms, k) == ms
  {
    if ms != [] {
      assert Keys(ms) == [ms[0].0] + Keys(ms[1..]);
      DeleteAbsent(ms[1..], k);
      assert [ms[0]] + ms[1..] == ms;
    }
  }

  /** `j.get(k)` on a mapping; `None` for anything else. */
  function Get(j: Json, k: string): Option<Json>
  {
    if j.Obj? then Find(j.members, k) else None
  }

  /** `k in j` for a mapping `j`. */
  predicate Has(j: Json, k: string)
  {
    j.Obj? && k in Keys(j.members)
  }

  /** Python truthiness of a JSON value. */
  predicate Truthy(j: Json)
  {
    match j
    case Null => false
    case Bool(b) => b
    case Int(i) => i != 0
    case Str(s) => s != ""
    case Arr(xs) => xs != []
    case Obj(ms) => ms != []
  }

  /** Truthiness of `d.get(k)`: a missing key reads as `None`, which is falsy. */
  predicate TruthyGet(j: Json, k: string)
  {
    var v := Get(j, k);
    v.Some? && Truthy(v.value)
  }

  /** `d.get(k) is True`: the stored value is the JSON literal `true` and nothing else. */
  predicate IsTrueGet(j: Json, k: string)
  {
    Get(j, k) == Some(Bool(true))
  }

  function KeyStrings(ks: seq<string>): (r: seq<Json>)
  {
    seq(|ks|, i requires 0 <= i < |ks| => Str(ks[i]))
  }

  /** What `for x in j` visits: the items of a list, the keys of a mapping, the one-character
      strings of a string. Numbers, booleans and null are not iterable in Python (the loop
      raises); they visit nothing here. */
  function Iterate(j: Json): (r: seq<Json>)
  {
    match j
    case Arr(xs) => xs
    case Obj(ms) => KeyStrings(Keys(ms))
    case Str(s) => seq(|s|, i requires 0 <= i < |s| => Str([s[i]]))
    case _ => []
  }

  /** The members of a mapping (`d.items()`); nothing for anything else. */
  function Entries(j: Json): Members
  {
    if j.Obj? then j.members else []
  }
}
