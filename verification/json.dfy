/**
 * The JSON trees exchanged with the device shadow, restricted to strings and
 * objects: the harness writes only string values, and the model assumes the
 * device reports only strings too (numbers, booleans, null and arrays are not
 * representable). A document is the top-level object.
 */
module Json {
  import opened Wrappers

  datatype Json = Str(s: string) | Obj(fields: map<string, Json>)

  type Doc = map<string, Json>

  /** The value at `path`, following object members from `j`. */
  function Lookup(j: Json, path: seq<string>): Option<Json>
    decreases |path|
  {
    if |path| == 0 then Some(j)
    else match j
      case Str(_) => None
      case Obj(m) => if path[0] in m then Lookup(m[path[0]], path[1..]) else None
  }

  /** The value at `path` in a document. */
  function LookupDoc(d: Doc, path: seq<string>): Option<Json> {
    Lookup(Obj(d), path)
  }

  /** A chain of single-member objects that holds `leaf` at `path`. */
  function Nest(path: seq<string>, leaf: Json): (j: Json)
    ensures |path| > 0 ==> j.Obj? && j.fields.Keys == {path[0]}
    decreases |path|
  {
    if |path| == 0 then leaf else Obj(map[path[0] := Nest(path[1..], leaf)])
  }

  /**
   * Every member met along `path` that has a further segment after it is an
   * object (a missing member is fine): writing along `path` cannot meet a string.
   */
  predicate Shaped(j: Json, path: seq<string>)
    decreases |path|
  {
    |path| == 0 || (j.Obj? && (path[0] in j.fields ==> Shaped(j.fields[path[0]], path[1..])))
  }

  /** `j` with the value at `path` replaced by `x`, creating empty objects for missing members. */
  function Put(j: Json, path: seq<string>, x: Json): Json
    decreases |path|
  {
    if |path| == 0 then x
    else match j
      case Str(_) => j
      case Obj(m) =>
        var child := if path[0] in m then m[path[0]] else Obj(map[]);
        Obj(m[path[0] := Put(child, path[1..], x)])
  }

  /** `Nest` puts its leaf exactly where `path` leads. */
  lemma {:induction false} LookupNest(path: seq<string>, leaf: Json)
    ensures Lookup(Nest(path, leaf), path) == Some(leaf)
    decreases |path|
  {
    if |path| > 0 {
      LookupNest(path[1..], leaf);
    }
  }

  /** A nested chain has nothing beside its own path. */
  lemma {:induction false} LookupNestOff(path: seq<string>, leaf: Json, p: seq<string>)
    requires !(p <= path) && !(path <= p)
    ensures Lookup(Nest(path, leaf), p) == None
    decreases |path|
  {
    if p[0] == path[0] {
      LookupNestOff(path[1..], leaf, p[1..]);
    }
  }

  /** Get after put: the written value is found at its path. */
  lemma {:induction false} LookupPut(j: Json, path: seq<string>, x: Json)
    requires Shaped(j, path)
    ensures Lookup(Put(j, path, x), path) == Some(x)
    decreases |path|
  {
    if |path| > 0 {
      var m := j.fields;
      var child := if path[0] in m then m[path[0]] else Obj(map[]);
      LookupPut(child, path[1..], x);
    }
  }

  /** Put leaves every path that is neither a prefix nor an extension of its own unchanged. */
  lemma {:induction false} LookupPutFrame(j: Json, path: seq<string>, x: Json, p: seq<string>)
    requires !(p <= path) && !(path <= p)
    ensures Lookup(Put(j, path, x), p) == Lookup(j, p)
    decreases |path|
  {
    match j
    case Str(_) =>
    case Obj(m) =>
      if p[0] == path[0] {
        var child := if path[0] in m then m[path[0]] else Obj(map[]);
        LookupPutFrame(child, path[1..], x, p[1..]);
        if path[0] !in m {
          LookupEmpty(p[1..]);
        }
      }
  }

  /** Whatever holds a value at a path holds a value at every prefix of it. */
  lemma {:induction false} LookupPrefixSome(j: Json, a: seq<string>, b: seq<string>)
    requires Lookup(j, a + b).Some?
    ensures Lookup(j, a).Some?
    decreases |a|
  {
    if |a| > 0 {
      assert (a + b)[0] == a[0];
      assert (a + b)[1..] == a[1..] + b;
      LookupPrefixSome(j.fields[a[0]], a[1..], b);
    }
  }

  /** One step of a lookup. */
  lemma LookupCons(j: Json, k: string, rest: seq<string>)
    ensures Lookup(j, [k] + rest) == if j.Obj? && k in j.fields then Lookup(j.fields[k], rest) else None
  {
    assert ([k] + rest)[0] == k;
    assert ([k] + rest)[1..] == rest;
  }

  /** One step of a nested chain. */
  lemma NestCons(k: string, rest: seq<string>, leaf: Json)
    ensures Nest([k] + rest, leaf) == Obj(map[k := Nest(rest, leaf)])
  {
    assert ([k] + rest)[0] == k;
    assert ([k] + rest)[1..] == rest;
  }

  /** One step of a put. */
  lemma PutCons(j: Json, k: string, rest: seq<string>, x: Json)
    ensures Put(j, [k] + rest, x) ==
      match j
      case Str(_) => j
      case Obj(m) => Obj(m[k := Put(if k in m then m[k] else Obj(map[]), rest, x)])
  {
    assert ([k] + rest)[0] == k;
    assert ([k] + rest)[1..] == rest;
  }

  /** One step of the shape condition. */
  lemma ShapedCons(j: Json, k: string, rest: seq<string>)
    ensures Shaped(j, [k] + rest) <==> j.Obj? && (k in j.fields ==> Shaped(j.fields[k], rest))
  {
    assert ([k] + rest)[0] == k;
    assert ([k] + rest)[1..] == rest;
  }

  /** A path that is shaped is shaped along each of its prefixes. */
  lemma {:induction false} ShapedPrefix(j: Json, path: seq<string>, n: nat)
    requires Shaped(j, path) && n <= |path|
    ensures Shaped(j, path[..n])
    decreases n
  {
    if n > 0 {
      assert path[..n][0] == path[0];
      assert path[..n][1..] == path[1..][..n - 1];
      if path[0] in j.fields {
        ShapedPrefix(j.fields[path[0]], path[1..], n - 1);
      }
    }
  }

  /** Only the empty path finds anything in an empty object. */
  lemma LookupEmpty(p: seq<string>)
    requires |p| > 0
    ensures Lookup(Obj(map[]), p) == None
  {
  }
}
