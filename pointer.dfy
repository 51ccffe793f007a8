/** The local-reference path of `resolve_refs` and the document lookup it feeds.

    The path is `ref[2:].split("/")`: the first two characters (normally `#/`) are dropped
    without being checked, and the rest is cut at every `/`. Unlike a JSON Pointer
    (section 4 of RFC 6901), `~0` and `~1` are not unescaped. */
module Pointer {
  import opened Wrappers
  import opened Json

  /** Python's `s.split("/")`: the pieces between separators, empty ones included;
      always at least one piece. */
  function Split(s: string): (parts: seq<string>)
    ensures |parts| >= 1
    ensures forall i :: 0 <= i < |parts| ==> '/' !in parts[i]
  {
    if s == [] then [[]]
    else if s[0] == '/' then [[]] + Split(s[1..])
    else
      var rest := Split(s[1..]);
      [[s[0]] + rest[0]] + rest[1..]
  }

  /** `"/".join(parts)`. */
  function Join(parts: seq<string>): string
    requires |parts| >= 1
  {
    if |parts| == 1 then parts[0] else parts[0] + "/" + Join(parts[1..])
  }

  /** Joining the pieces gives the string back. */
  lemma {:induction false} JoinSplit(s: string)
    ensures Join(Split(s)) == s
  {
    if s != [] {
      JoinSplit(s[1..]);
      var rest := Split(s[1..]);
      if s[0] == '/' {
        assert Split(s)[1..] == rest;
      } else if |rest| == 1 {
        assert Split(s) == [[s[0]] + rest[0]];
      } else {
        assert Split(s)[1..] == rest[1..];
        assert Join(rest) == rest[0] + "/" + Join(rest[1..]);
      }
    }
  }

  /** Splitting a join of slash-free pieces gives the pieces back. */
  lemma {:induction false} SplitJoin(parts: seq<string>)
    requires |parts| >= 1
    requires forall i :: 0 <= i < |parts| ==> '/' !in parts[i]
    ensures Split(Join(parts)) == parts
    decreases |parts|, |parts[0]|
  {
    if parts[0] == [] {
      if |parts| > 1 {
        SplitJoin(parts[1..]);
        assert Join(parts) == "/" + Join(parts[1..]);
        assert Join(parts)[1..] == Join(parts[1..]);
      }
    } else {
      var shorter := [parts[0][1..]] + parts[1..];
      DropFirstCharSlashFree(parts);
      SplitJoin(shorter);
      assert shorter[1..] == parts[1..];
      assert Join(parts) == [parts[0][0]] + Join(shorter) by {
        if |parts| == 1 {
        } else {
          assert Join(shorter) == parts[0][1..] + "/" + Join(parts[1..]);
        }
      }
      assert parts[0][0] != '/' by { assert parts[0][0] in parts[0]; }
      assert Join(parts)[1..] == Join(shorter);
      assert [parts[0][0]] + parts[0][1..] == parts[0];
    }
  }

  /** Dropping the first character of the first piece keeps every piece slash-free. */
  lemma DropFirstCharSlashFree(parts: seq<string>)
    requires |parts| >= 1 && parts[0] != []
    requires forall i :: 0 <= i < |parts| ==> '/' !in parts[i]
    ensures forall i :: 0 <= i < |parts| ==> '/' !in ([parts[0][1..]] + parts[1..])[i]
  {
    var shorter := [parts[0][1..]] + parts[1..];
    forall i | 0 <= i < |shorter| ensures '/' !in shorter[i] {
      if i == 0 {
        assert forall c :: c in parts[0][1..] ==> c in parts[0];
      } else {
        assert shorter[i] == parts[i];
      }
    }
  }

  /** The lookup path of a local reference (`ref[2:].split("/")`). */
  function RefPath(ref: string): (path: seq<string>)
    ensures |path| >= 1 && forall i :: 0 <= i < |path| ==> '/' !in path[i]
    ensures Join(path) == if |ref| >= 2 then ref[2..] else ""
  {
    var rest := if |ref| >= 2 then ref[2..] else "";
    JoinSplit(rest);
    Split(rest)
  }

  predicate IsDigit(c: char)
  {
    '0' as int <= c as int <= '9' as int
  }

  /** The value of a non-empty run of decimal digits. */
  function DigitsValue(s: string): nat
    requires forall i :: 0 <= i < |s| ==> IsDigit(s[i])
  {
    if s == [] then 0
    else
      assert IsDigit(s[|s| - 1]);
      DigitsValue(s[..|s| - 1]) * 10 + (s[|s| - 1] as int - '0' as int)
  }

  /** A path step read as a list index. */
  function ParseIndex(s: string): Option<nat>
  {
    if s != [] && forall i :: 0 <= i < |s| ==> IsDigit(s[i]) then Some(DigitsValue(s)) else None
  }

  /** `deep_get(doc, path)`: follow the path through mappings (by key) and lists (by decimal
      index). `None` stands for the `KeyError` that sends `resolve_refs` to the external
      resolver. */
  function DeepGet(doc: Json, path: seq<string>): (r: Option<Json>)
    ensures path == [] ==> r == Some(doc)
    ensures path != [] && r.Some? ==> doc.Obj? || doc.Arr?
    decreases |path|
  {
    if path == [] then Some(doc)
    else
      match doc
      case Obj(ms) =>
        (match Find(ms, path[0])
         case Some(child) => DeepGet(child, path[1..])
         case None => None)
      case Arr(xs) =>
        (match ParseIndex(path[0])
         case Some(n) => if n < |xs| then DeepGet(xs[n], path[1..]) else None
         case None => None)
      case _ => None
  }

  /** Looking up `p + q` is looking up `p`, then `q` inside what was found. */
  lemma {:induction false} DeepGetAppend(doc: Json, p: seq<string>, q: seq<string>)
    ensures DeepGet(doc, p + q) ==
      match DeepGet(doc, p)
      case Some(found) => DeepGet(found, q)
      case None => None
    decreases |p|
  {
    if p != [] {
      assert (p + q)[0] == p[0];
      assert (p + q)[1..] == p[1..] + q;
      match doc
      case Obj(ms) =>
        if Find(ms, p[0]).Some? {
          DeepGetAppend(Find(ms, p[0]).value, p[1..], q);
        }
      case Arr(xs) =>
        var n := ParseIndex(p[0]);
        if n.Some? && n.value < |xs| {
          DeepGetAppend(xs[n.value], p[1..], q);
        }
      case _ =>
    } else {
      assert p + q == q;
    }
  }
}
