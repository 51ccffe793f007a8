/** `resolve_refs`: the walk that rewrites `{"$ref": ...}` nodes of a deep copy of a schema
    document.

    The source rewrites the copy in place, and the lookup of a local reference reads that
    copy as it stands at that moment: members and items already visited hold their
    rewritten values, those not yet visited their original ones. The model keeps the copy
    as a value and tracks where the current node sits in it with a zipper (`Ctx`);
    `Plug(ctx, node)` is the whole copy as the source's `spec` holds it while `node` is
    being resolved. `Walk` is the specification; `DoResolve` follows the source's loops and
    is proved equal to it. */
module Resolver {
  import opened Wrappers
  import opened Json
  import opened Pointer

  /** The path from the root of the copy to the node being resolved, with the siblings on
      either side at each level. */
  datatype Ctx =
    | Top
    | InObj(up: Ctx, before: Members, key: string, after: Members)
    | InArr(up: Ctx, left: seq<Json>, right: seq<Json>)

  /** The whole copy with `node` in the hole. */
  function Plug(ctx: Ctx, node: Json): Json
  {
    match ctx
    case Top => node
    case InObj(up, before, key, after) => Plug(up, Obj(before + [(key, node)] + after))
    case InArr(up, left, right) => Plug(up, Arr(left + [node] + right))
  }

  /** What makes a `resolve_refs` call raise. */
  datatype ResolveError =
    | MalformedRef(ref: Json)    // `$ref` is not a string: `ref[2:].split` raises
    | NotUpdatable(uri: string)  // `node.update` raises on the local target
    | Unresolvable(uri: string, base: Json)  // the external resolver over `base` raises `RefResolutionError`

  /** The external resolver (`RefResolver.resolving`). It is built at line 33 over the copy
      itself, so it is handed the copy as it stands when the reference is reached, together
      with the reference; it gives the document the reference designates, or `None` when it
      raises. */
  type Fetcher = (Json, string) -> Option<Json>

  /** The branch of `_do_resolve` for a mapping that contains `$ref`: look the path up in
      the copy; on success `update` the node with the target and drop `$ref`, without
      walking the result; when the path is absent, hand the reference and the copy to the
      external resolver and return what it gives, unwalked. */
  function ResolveRef(ms: Members, ctx: Ctx, fetch: Fetcher): (r: Result<Json, ResolveError>)
    requires "$ref" in Keys(ms)
    ensures r.Err? && r.error.Unresolvable? ==> fetch(r.error.base, r.error.uri).None?
    ensures r.Err? && r.error.Unresolvable? ==>
      r.error.base == Plug(ctx, Obj(ms)) && Find(ms, "$ref") == Some(Str(r.error.uri))
    ensures r.Err? && r.error.MalformedRef? ==>
      Find(ms, "$ref") == Some(r.error.ref) && !r.error.ref.Str?
  {
    var ref := Find(ms, "$ref").value;
    var copy := Plug(ctx, Obj(ms));
    if !ref.Str? then Err(MalformedRef(ref))
    else
      match DeepGet(copy, RefPath(ref.s))
      case Some(target) =>
        (match UpdatePairs(target)
         case Some(pairs) => Ok(Obj(Delete(Merge(ms, pairs), "$ref")))
         case None => Err(NotUpdatable(ref.s)))
      case None =>
        match fetch(copy, ref.s)
        case Some(doc) => Ok(doc)
        case None => Err(Unresolvable(ref.s, copy))
  }

  /** `_do_resolve(node)` with `Plug(ctx, node)` as the copy. An unresolvable error always
      names a reference the external resolver failed on. */
  function Walk(node: Json, ctx: Ctx, fetch: Fetcher): (r: Result<Json, ResolveError>)
    ensures r.Err? && r.error.Unresolvable? ==> fetch(r.error.base, r.error.uri).None?
    decreases node, 1
  {
    match node
    case Obj(ms) =>
      if "$ref" in Keys(ms) then ResolveRef(ms, ctx, fetch)
      else
        (match WalkMembers(node, 0, [], ctx, fetch)
         case Ok(ms') => Ok(Obj(ms'))
         case Err(e) => Err(e))
    case Arr(xs) =>
      (match WalkItems(node, 0, [], ctx, fetch)
       case Ok(xs') => Ok(Arr(xs'))
       case Err(e) => Err(e))
    case _ => Ok(node)
  }

  /** The loop `for k, v in node.items(): node[k] = _do_resolve(v)` from the `i`-th member
      on, the members before it rewritten to `done`. */
  function WalkMembers(node: Json, i: nat, done: Members, ctx: Ctx, fetch: Fetcher): (r: Result<Members, ResolveError>)
    requires node.Obj? && i <= |node.members| && |done| == i
    ensures r.Err? && r.error.Unresolvable? ==> fetch(r.error.base, r.error.uri).None?
    decreases node, 0, |node.members| - i
  {
    var ms := node.members;
    if i == |ms| then Ok(done)
    else
      var (k, v) := ms[i];
      assert ms[i] in ms;
      match Walk(v, InObj(ctx, done, k, ms[i + 1..]), fetch)
      case Ok(v') =>
        WalkMembers(node, i + 1, done + [(k, v')], ctx, fetch)
      case Err(e) => Err(e)
  }

  /** The loop `for i, _ in enumerate(node): node[i] = _do_resolve(node[i])` from the `i`-th
      item on, the items before it rewritten to `done`. */
  function WalkItems(node: Json, i: nat, done: seq<Json>, ctx: Ctx, fetch: Fetcher): (r: Result<seq<Json>, ResolveError>)
    requires node.Arr? && i <= |node.items| && |done| == i
    ensures r.Err? && r.error.Unresolvable? ==> fetch(r.error.base, r.error.uri).None?
    decreases node, 0, |node.items| - i
  {
    var xs := node.items;
    if i == |xs| then Ok(done)
    else
      assert xs[i] in xs;
      match Walk(xs[i], InArr(ctx, done, xs[i + 1..]), fetch)
      case Ok(x) => WalkItems(node, i + 1, done + [x], ctx, fetch)
      case Err(e) => Err(e)
  }

  /** `resolve_refs(spec)`: walk the copy from its root. */
  function Resolve(spec: Json, fetch: Fetcher): (r: Result<Json, ResolveError>)
    ensures r.Err? && r.error.Unresolvable? ==> fetch(r.error.base, r.error.uri).None?
  {
    Walk(spec, Top, fetch)
  }

  /** `_do_resolve`, rewriting the node's members and items in place as the source does. */
  method DoResolve(node: Json, ctx: Ctx, fetch: Fetcher) returns (r: Result<Json, ResolveError>)
    ensures r == Walk(node, ctx, fetch)
    decreases node, 1
  {
    match node {
      case Obj(ms) =>
        if "$ref" in Keys(ms) {
          r := ResolveRef(ms, ctx, fetch);
        } else {
          var members := ResolveMembers(node, ctx, fetch);
          r := match members case Ok(ms') => Ok(Obj(ms')) case Err(e) => Err(e);
        }
      case Arr(xs) =>
        var items := ResolveItems(node, ctx, fetch);
        r := match items case Ok(xs') => Ok(Arr(xs')) case Err(e) => Err(e);
      case _ =>
        r := Ok(node);
    }
  }

  /** `for k, v in node.items(): node[k] = _do_resolve(v)`. */
  method ResolveMembers(node: Json, ctx: Ctx, fetch: Fetcher) returns (r: Result<Members, ResolveError>)
    requires node.Obj?
    ensures r == WalkMembers(node, 0, [], ctx, fetch)
    decreases node, 0
  {
    var ms := node.members;
    var members := ms;
    var i := 0;
    while i < |members|
      invariant 0 <= i <= |members| == |ms|
      invariant members[i..] == ms[i..]
      invariant WalkMembers(node, i, members[..i], ctx, fetch) == WalkMembers(node, 0, [], ctx, fetch)
    {
      var (k, v) := members[i];
      assert ms[i] in ms;
      var child := DoResolve(v, InObj(ctx, members[..i], k, members[i + 1..]), fetch);
      assert members[i + 1..] == ms[i + 1..];
      if child.Err? {
        return Err(child.error);
      }
      ghost var done := members[..i];
      members := members[i := (k, child.value)];
      assert members[..i + 1] == done + [(k, child.value)];
      i := i + 1;
    }
    assert members[..i] == members;
    return Ok(members);
  }

  /** `for i, _ in enumerate(node): node[i] = _do_resolve(node[i])`. */
  method ResolveItems(node: Json, ctx: Ctx, fetch: Fetcher) returns (r: Result<seq<Json>, ResolveError>)
    requires node.Arr?
    ensures r == WalkItems(node, 0, [], ctx, fetch)
    decreases node, 0
  {
    var xs := node.items;
    var items := xs;
    var i := 0;
    while i < |items|
      invariant 0 <= i <= |items| == |xs|
      invariant items[i..] == xs[i..]
      invariant WalkItems(node, i, items[..i], ctx, fetch) == WalkItems(node, 0, [], ctx, fetch)
    {
      assert xs[i] in xs;
      var child := DoResolve(items[i], InArr(ctx, items[..i], items[i + 1..]), fetch);
      assert items[i + 1..] == xs[i + 1..];
      if child.Err? {
        return Err(child.error);
      }
      ghost var done := items[..i];
      items := items[i := child.value];
      assert items[..i + 1] == done + [child.value];
      i := i + 1;
    }
    assert items[..i] == items;
    return Ok(items);
  }

  /** `resolve_refs(spec)` with the external resolver `fetch`. */
  method ResolveRefs(spec: Json, fetch: Fetcher) returns (r: Result<Json, ResolveError>)
    ensures r == Resolve(spec, fetch)
  {
    r := DoResolve(spec, Top, fetch);
  }

  /** The walk keeps the shape of what it does not rewrite: a mapping without `$ref` keeps
      its keys in order, a list its length, a scalar its value. */
  lemma {:induction false} WalkShape(node: Json, ctx: Ctx, fetch: Fetcher)
    ensures var r := Walk(node, ctx, fetch);
      && (r.Ok? && node.Obj? && "$ref" !in Keys(node.members) ==>
            r.value.Obj? && Keys(r.value.members) == Keys(node.members))
      && (r.Ok? && node.Arr? ==> r.value.Arr? && |r.value.items| == |node.items|)
      && (r.Ok? && !node.Obj? && !node.Arr? ==> r.value == node)
  {
    match node
    case Obj(ms) =>
      if "$ref" !in Keys(ms) {
        WalkMembersKeys(node, 0, [], ctx, fetch);
        assert ms[0..] == ms;
      }
    case Arr(xs) =>
      WalkItemsLength(node, 0, [], ctx, fetch);
    case _ =>
  }

  lemma {:induction false} WalkMembersKeys(node: Json, i: nat, done: Members, ctx: Ctx, fetch: Fetcher)
    requires node.Obj? && i <= |node.members| && |done| == i
    ensures var r := WalkMembers(node, i, done, ctx, fetch);
      r.Ok? ==> Keys(r.value) == Keys(done) + Keys(node.members[i..])
    decreases |node.members| - i
  {
    var ms := node.members;
    if i == |ms| {
      assert ms[i..] == [];
    } else {
      var (k, v) := ms[i];
      var w := Walk(v, InObj(ctx, done, k, ms[i + 1..]), fetch);
      if w.Ok? {
        WalkMembersKeys(node, i + 1, done + [(k, w.value)], ctx, fetch);
        KeysAppend(done, [(k, w.value)]);
        KeysAppend([ms[i]], ms[i + 1..]);
        assert ms[i..] == [ms[i]] + ms[i + 1..];
      }
    }
  }

  lemma {:induction false} WalkItemsLength(node: Json, i: nat, done: seq<Json>, ctx: Ctx, fetch: Fetcher)
    requires node.Arr? && i <= |node.items| && |done| == i
    ensures var r := WalkItems(node, i, done, ctx, fetch);
      r.Ok? ==> |r.value| == |node.items|
    decreases |node.items| - i
  {
    var xs := node.items;
    if i < |xs| {
      var w := Walk(xs[i], InArr(ctx, done, xs[i + 1..]), fetch);
      if w.Ok? {
        WalkItemsLength(node, i + 1, done + [w.value], ctx, fetch);
      }
    }
  }

  /** No mapping anywhere in `j` has a `$ref` key. */
  predicate NoRefs(j: Json)
  {
    match j
    case Obj(ms) => "$ref" !in Keys(ms) && forall i :: 0 <= i < |ms| ==> (assert ms[i] in ms; NoRefs(ms[i].1))
    case Arr(xs) => forall i :: 0 <= i < |xs| ==> (assert xs[i] in xs; NoRefs(xs[i]))
    case _ => true
  }

  /** A tree without references comes back unchanged, wherever it sits in the copy:
      mappings keep their members in order, lists their items, scalars their value. */
  lemma {:induction false} WalkNoRefs(node: Json, ctx: Ctx, fetch: Fetcher)
    requires NoRefs(node)
    ensures Walk(node, ctx, fetch) == Ok(node)
    decreases node, 1
  {
    match node
    case Obj(ms) =>
      assert ms[..0] == [];
      WalkMembersNoRefs(node, 0, ctx, fetch);
    case Arr(xs) =>
      assert xs[..0] == [];
      WalkItemsNoRefs(node, 0, ctx, fetch);
    case _ =>
  }

  lemma {:induction false} WalkMembersNoRefs(node: Json, i: nat, ctx: Ctx, fetch: Fetcher)
    requires node.Obj? && NoRefs(node) && i <= |node.members|
    ensures WalkMembers(node, i, node.members[..i], ctx, fetch) == Ok(node.members)
    decreases node, 0, |node.members| - i
  {
    var ms := node.members;
    if i == |ms| {
      assert ms[..i] == ms;
    } else {
      assert ms[i] in ms;
      WalkNoRefs(ms[i].1, InObj(ctx, ms[..i], ms[i].0, ms[i + 1..]), fetch);
      assert ms[..i] + [(ms[i].0, ms[i].1)] == ms[..i + 1];
      WalkMembersNoRefs(node, i + 1, ctx, fetch);
    }
  }

  lemma {:induction false} WalkItemsNoRefs(node: Json, i: nat, ctx: Ctx, fetch: Fetcher)
    requires node.Arr? && NoRefs(node) && i <= |node.items|
    ensures WalkItems(node, i, node.items[..i], ctx, fetch) == Ok(node.items)
    decreases node, 0, |node.items| - i
  {
    var xs := node.items;
    if i == |xs| {
      assert xs[..i] == xs;
    } else {
      assert xs[i] in xs;
      WalkNoRefs(xs[i], InArr(ctx, xs[..i], xs[i + 1..]), fetch);
      assert xs[..i] + [xs[i]] == xs[..i + 1];
      WalkItemsNoRefs(node, i + 1, ctx, fetch);
    }
  }

  /** Resolving a document without references gives the document back. */
  lemma ResolveNoRefs(spec: Json, fetch: Fetcher)
    requires NoRefs(spec)
    ensures Resolve(spec, fetch) == Ok(spec)
  {
    WalkNoRefs(spec, Top, fetch);
  }

  /** A local reference whose target is a mapping: the node keeps its own keys unless the
      target overwrites them, gains every key of the target, loses `$ref`, and holds the
      target's values as they are (nothing in them is resolved further). */
  lemma LocalRefRewrite(ms: Members, ctx: Ctx, fetch: Fetcher, ref: string, target: Members)
    requires Find(ms, "$ref") == Some(Str(ref))
    requires DeepGet(Plug(ctx, Obj(ms)), RefPath(ref)) == Some(Obj(target))
    requires UniqueKeys(target)
    ensures Walk(Obj(ms), ctx, fetch).Ok?
    ensures var r := Walk(Obj(ms), ctx, fetch).value;
      && r.Obj?
      && "$ref" !in Keys(r.members)
      && (forall k :: k != "$ref" && k in Keys(target) ==> Find(r.members, k) == Find(target, k))
      && (forall k :: k != "$ref" && k !in Keys(target) ==> Find(r.members, k) == Find(ms, k))
  {
    var r := Delete(Merge(ms, target), "$ref");
    assert Walk(Obj(ms), ctx, fetch) == Ok(Obj(r));
    forall k | k != "$ref"
      ensures Find(r, k) == if k in Keys(target) then Find(target, k) else Find(ms, k)
    {
      DeleteFind(Merge(ms, target), "$ref", k);
      MergeFind(ms, target, k);
    }
  }

  /** A reference whose path is absent from the copy goes to the external resolver, which
      is handed the copy as it stands: its document replaces the node as it is, and a
      failed fetch fails the whole call. */
  lemma ExternalRef(ms: Members, ctx: Ctx, fetch: Fetcher, ref: string)
    requires Find(ms, "$ref") == Some(Str(ref))
    requires DeepGet(Plug(ctx, Obj(ms)), RefPath(ref)).None?
    ensures Walk(Obj(ms), ctx, fetch) ==
      match fetch(Plug(ctx, Obj(ms)), ref)
      case Some(doc) => Ok(doc)
      case None => Err(Unresolvable(ref, Plug(ctx, Obj(ms))))
  {
  }

  /** A reference node proper, `{"$ref": ref}`, whose path leads to a mapping without
      `$ref` becomes a copy of that mapping. */
  lemma RefNodeBecomesTarget(ref: string, ctx: Ctx, fetch: Fetcher, target: Members)
    requires DeepGet(Plug(ctx, Obj([("$ref", Str(ref))])), RefPath(ref)) == Some(Obj(target))
    requires UniqueKeys(target) && "$ref" !in Keys(target)
    ensures Walk(Obj([("$ref", Str(ref))]), ctx, fetch) == Ok(Obj(target))
  {
    var ms := [("$ref", Str(ref))];
    assert Keys(ms) == ["$ref"];
    MergeFresh(ms, target);
    assert Delete(ms + target, "$ref") == Delete(target, "$ref") by {
      assert (ms + target)[1..] == target;
    }
    DeleteAbsent(target, "$ref");
  }

  /** `{"a": {"value": 1}, "b": {"$ref": "#/a"}}` resolves to
      `{"a": {"value": 1}, "b": {"value": 1}}`. */
  lemma ExampleLocalRef(fetch: Fetcher)
    ensures Resolve(Obj([("a", Obj([("value", Int(1))])), ("b", Obj([("$ref", Str("#/a"))]))]), fetch)
         == Ok(Obj([("a", Obj([("value", Int(1))])), ("b", Obj([("value", Int(1))]))]))
  {
    var a := Obj([("value", Int(1))]);
    var doc := Obj([("a", a), ("b", Obj([("$ref", Str("#/a"))]))]);
    assert Keys(doc.members) == ["a", "b"];
    ExampleFromFirst(fetch);
  }

  lemma ExampleFromFirst(fetch: Fetcher)
    ensures var a := Obj([("value", Int(1))]);
      WalkMembers(Obj([("a", a), ("b", Obj([("$ref", Str("#/a"))]))]), 0, [], Top, fetch) == Ok([("a", a), ("b", a)])
  {
    var a := Obj([("value", Int(1))]);
    var doc := Obj([("a", a), ("b", Obj([("$ref", Str("#/a"))]))]);
    assert doc.members[1..] == [("b", Obj([("$ref", Str("#/a"))]))];
    ExampleFirstMember(fetch);
    assert [] + [("a", a)] == [("a", a)];
    ExampleFromSecond(fetch);
  }

  lemma ExampleFromSecond(fetch: Fetcher)
    ensures var a := Obj([("value", Int(1))]);
      WalkMembers(Obj([("a", a), ("b", Obj([("$ref", Str("#/a"))]))]), 1, [("a", a)], Top, fetch) == Ok([("a", a), ("b", a)])
  {
    var a := Obj([("value", Int(1))]);
    var doc := Obj([("a", a), ("b", Obj([("$ref", Str("#/a"))]))]);
    assert doc.members[2..] == [];
    ExampleSecondMember(fetch);
    assert [("a", a)] + [("b", a)] == [("a", a), ("b", a)];
  }

  lemma ExampleFirstMember(fetch: Fetcher)
    ensures Walk(Obj([("value", Int(1))]), InObj(Top, [], "a", [("b", Obj([("$ref", Str("#/a"))]))]), fetch)
         == Ok(Obj([("value", Int(1))]))
  {
    var a := Obj([("value", Int(1))]);
    assert NoRefs(a);
    WalkNoRefs(a, InObj(Top, [], "a", [("b", Obj([("$ref", Str("#/a"))]))]), fetch);
  }

  lemma ExampleSecondMember(fetch: Fetcher)
    ensures Walk(Obj([("$ref", Str("#/a"))]), InObj(Top, [("a", Obj([("value", Int(1))]))], "b", []), fetch)
         == Ok(Obj([("value", Int(1))]))
  {
    var a := Obj([("value", Int(1))]);
    var ctxB := InObj(Top, [("a", a)], "b", []);
    var doc := Obj([("a", a), ("b", Obj([("$ref", Str("#/a"))]))]);
    assert Plug(ctxB, Obj([("$ref", Str("#/a"))])) == doc;
    RefPathSingle('#', '/', "a");
    assert DeepGet(doc, ["a"]) == Some(a);
    RefNodeBecomesTarget("#/a", ctxB, fetch, a.members);
  }

  /** A reference is looked up in the copy as rewritten so far: in
      `{"a": {"$ref": "#/c"}, "b": {"$ref": "#/a"}, "c": {"x": 1}}`, `b` is resolved after
      `a` was replaced by `{"x": 1}`, and so becomes `{"x": 1}` too. (Looked up in the
      original document, `b` would merge in `{"$ref": "#/c"}`, drop `$ref` and end up `{}`.) */
  lemma ExampleLookupSeesRewrites(fetch: Fetcher)
    ensures Resolve(Obj([("a", Obj([("$ref", Str("#/c"))])), ("b", Obj([("$ref", Str("#/a"))])), ("c", Obj([("x", Int(1))]))]), fetch)
         == Ok(Obj([("a", Obj([("x", Int(1))])), ("b", Obj([("x", Int(1))])), ("c", Obj([("x", Int(1))]))]))
  {
    var doc := Obj([("a", Obj([("$ref", Str("#/c"))])), ("b", Obj([("$ref", Str("#/a"))])), ("c", Obj([("x", Int(1))]))]);
    assert Keys(doc.members) == ["a", "b", "c"];
    RewritesFromA(fetch);
  }

  lemma RewritesFromA(fetch: Fetcher)
    ensures var c := Obj([("x", Int(1))]);
      WalkMembers(Obj([("a", Obj([("$ref", Str("#/c"))])), ("b", Obj([("$ref", Str("#/a"))])), ("c", c)]), 0, [], Top, fetch)
      == Ok([("a", c), ("b", c), ("c", c)])
  {
    var c := Obj([("x", Int(1))]);
    var aRef := Obj([("$ref", Str("#/c"))]);
    var bRef := Obj([("$ref", Str("#/a"))]);
    var doc := Obj([("a", aRef), ("b", bRef), ("c", c)]);
    var ctxA := InObj(Top, [], "a", [("b", bRef), ("c", c)]);
    assert doc.members[1..] == [("b", bRef), ("c", c)];
    assert Walk(aRef, ctxA, fetch) == Ok(c) by {
      assert Plug(ctxA, aRef) == doc;
      RefPathSingle('#', '/', "c");
      assert Find(doc.members[2..], "c") == Some(c);
      assert Find(doc.members[1..], "c") == Some(c);
      assert DeepGet(doc, ["c"]) == Some(c);
      RefNodeBecomesTarget("#/c", ctxA, fetch, c.members);
    }
    assert [] + [("a", c)] == [("a", c)];
    RewritesFromB(fetch);
  }

  lemma RewritesFromB(fetch: Fetcher)
    ensures var c := Obj([("x", Int(1))]);
      WalkMembers(Obj([("a", Obj([("$ref", Str("#/c"))])), ("b", Obj([("$ref", Str("#/a"))])), ("c", c)]), 1, [("a", c)], Top, fetch)
      == Ok([("a", c), ("b", c), ("c", c)])
  {
    var c := Obj([("x", Int(1))]);
    var bRef := Obj([("$ref", Str("#/a"))]);
    var doc := Obj([("a", Obj([("$ref", Str("#/c"))])), ("b", bRef), ("c", c)]);
    var ctxB := InObj(Top, [("a", c)], "b", [("c", c)]);
    assert doc.members[2..] == [("c", c)];
    assert Walk(bRef, ctxB, fetch) == Ok(c) by {
      var seen := Obj([("a", c), ("b", bRef), ("c", c)]);
      assert Plug(ctxB, bRef) == seen;
      RefPathSingle('#', '/', "a");
      assert DeepGet(seen, ["a"]) == Some(c);
      RefNodeBecomesTarget("#/a", ctxB, fetch, c.members);
    }
    assert [("a", c)] + [("b", c)] == [("a", c), ("b", c)];
    RewritesFromC(fetch);
  }

  lemma RewritesFromC(fetch: Fetcher)
    ensures var c := Obj([("x", Int(1))]);
      WalkMembers(Obj([("a", Obj([("$ref", Str("#/c"))])), ("b", Obj([("$ref", Str("#/a"))])), ("c", c)]), 2, [("a", c), ("b", c)], Top, fetch)
      == Ok([("a", c), ("b", c), ("c", c)])
  {
    var c := Obj([("x", Int(1))]);
    var doc := Obj([("a", Obj([("$ref", Str("#/c"))])), ("b", Obj([("$ref", Str("#/a"))])), ("c", c)]);
    assert doc.members[3..] == [];
    assert Walk(c, InObj(Top, [("a", c), ("b", c)], "c", []), fetch) == Ok(c) by {
      assert NoRefs(c);
      WalkNoRefs(c, InObj(Top, [("a", c), ("b", c)], "c", []), fetch);
    }
    assert [("a", c), ("b", c)] + [("c", c)] == [("a", c), ("b", c), ("c", c)];
  }

  /** `update` also takes a list of key/value pairs: `{"$ref": "#/a"}` whose target `a` is
      `[["k", 1]]` becomes `{"k": 1}`. */
  lemma ExamplePairsTarget(fetch: Fetcher)
    ensures Walk(Obj([("$ref", Str("#/a"))]),
                 InObj(Top, [("a", Arr([Arr([Str("k"), Int(1)])]))], "b", []), fetch)
         == Ok(Obj([("k", Int(1))]))
  {
    var ctx := InObj(Top, [("a", Arr([Arr([Str("k"), Int(1)])]))], "b", []);
    var ms := [("$ref", Str("#/a"))];
    assert Keys(ms) == ["$ref"];
    RefPathSingle('#', '/', "a");
    var copy := Plug(ctx, Obj(ms));
    assert copy == Obj([("a", Arr([Arr([Str("k"), Int(1)])])), ("b", Obj(ms))]);
    assert Find(copy.members, "a") == Some(Arr([Arr([Str("k"), Int(1)])]));
    assert DeepGet(copy, ["a"]) == Some(Arr([Arr([Str("k"), Int(1)])]));
    PairsTargetUpdate();
  }

  lemma PairsTargetUpdate()
    ensures UpdatePairs(Arr([Arr([Str("k"), Int(1)])])) == Some([("k", Int(1))])
    ensures Delete(Merge([("$ref", Str("#/a"))], [("k", Int(1))]), "$ref") == [("k", Int(1))]
  {
    var xs := [Arr([Str("k"), Int(1)])];
    assert AsPair(xs[0]) == Some(("k", Int(1)));
    assert xs[1..] == [];
    assert AsPairs(xs[1..]) == Some([]);
    assert AsPairs(xs) == Some([("k", Int(1))] + []);
    assert [("k", Int(1))] + [] == [("k", Int(1))];
    assert UpdatePairs(Arr(xs)) == AsPairs(xs);
    assert Merge([("$ref", Str("#/a"))], [("k", Int(1))]) == [("$ref", Str("#/a")), ("k", Int(1))];
  }

  /** A target that `update` cannot take (here the number `1`) makes the call fail. */
  lemma ExampleNumberTarget(fetch: Fetcher)
    ensures Walk(Obj([("$ref", Str("#/a"))]), InObj(Top, [("a", Int(1))], "b", []), fetch)
         == Err(NotUpdatable("#/a"))
  {
    var ctx := InObj(Top, [("a", Int(1))], "b", []);
    var ms := [("$ref", Str("#/a"))];
    assert Keys(ms) == ["$ref"];
    RefPathSingle('#', '/', "a");
    var copy := Plug(ctx, Obj(ms));
    assert copy == Obj([("a", Int(1)), ("b", Obj(ms))]);
    assert Find(copy.members, "a") == Some(Int(1));
    assert DeepGet(copy, ["a"]) == Some(Int(1));
  }

  /** A reference with one path segment looks that segment up, whatever its first two
      characters are. */
  lemma RefPathSingle(c0: char, c1: char, key: string)
    requires '/' !in key
    ensures RefPath([c0, c1] + key) == [key]
  {
    assert ([c0, c1] + key)[2..] == key;
    SplitJoin([key]);
  }
}
