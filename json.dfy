/**
 * Decoded JSON documents and the soft path lookup used to read them
 * (`extractJsonValue` of the add-on's utility module).
 */
module JsonTree {
  import opened Wrappers

  /** A value as json.loads produces it; numbers are integers in this model. */
  datatype Json =
    | JNull
    | JBool(b: bool)
    | JInt(i: int)
    | JStr(s: string)
    | JArr(elems: seq<Json>)
    | JObj(fields: map<string, Json>)

  /** One step of a lookup path: a field name or a list position. */
  datatype Segment = Key(name: string) | Index(pos: nat)

  /** One lookup step: absent when the node lacks the field or position, or has the wrong shape. */
  function Step(j: Json, seg: Segment): Option<Json> {
    match seg
    case Key(k) => if j.JObj? && k in j.fields then Some(j.fields[k]) else None
    case Index(n) => if j.JArr? && n < |j.elems| then Some(j.elems[n]) else None
  }

  /** Walks `path` from `j`; absent as soon as one step is absent, never an error. */
  function Extract(j: Json, path: seq<Segment>): Option<Json>
    decreases |path|
  {
    if path == [] then Some(j)
    else match Step(j, path[0])
      case None => None
      case Some(v) => Extract(v, path[1..])
  }

  /** What the caller sees: the value found, or None (JNull) when it is absent. */
  function Value(j: Json, path: seq<Segment>): Json {
    match Extract(j, path)
    case None => JNull
    case Some(v) => v
  }

  /** Python truthiness of a decoded JSON value. */
  predicate Truthy(j: Json) {
    match j
    case JNull => false
    case JBool(b) => b
    case JInt(i) => i != 0
    case JStr(s) => s != []
    case JArr(xs) => xs != []
    case JObj(m) => m != map[]
  }

  /**
   * The elements a Python `for` loop visits: a list's elements, a string's
   * one-character strings; any other value raises TypeError (None and numbers
   * are not iterable; iterating an object's keys is not modelled).
   */
  function Elements(j: Json): Option<seq<Json>> {
    match j
    case JArr(xs) => Some(xs)
    case JStr(s) => Some(seq(|s|, i requires 0 <= i < |s| => JStr([s[i]])))
    case _ => None
  }

  /** A path can be walked in two legs: absence anywhere on the first leg is absence of the whole. */
  lemma {:induction false} ExtractAppend(j: Json, p: seq<Segment>, q: seq<Segment>)
    ensures Extract(j, p + q) == match Extract(j, p) case None => None case Some(v) => Extract(v, q)
    decreases |p|
  {
    if p != [] {
      assert (p + q)[0] == p[0];
      assert (p + q)[1..] == p[1..] + q;
      match Step(j, p[0])
      case None =>
      case Some(v) => ExtractAppend(v, p[1..], q);
    } else {
      assert p + q == q;
    }
  }

  /** Reading from the value found along a first leg is reading along the joined path (None reads as None). */
  lemma ValueAppend(j: Json, p: seq<Segment>, q: seq<Segment>)
    ensures Value(Value(j, p), q) == Value(j, p + q)
  {
    ExtractAppend(j, p, q);
    if Extract(j, p).None? && q != [] {
      assert Step(JNull, q[0]) == None;
    }
  }

  /** A truthy value was found: absence reads as None, which is falsy. */
  lemma TruthyValueIsPresent(j: Json, path: seq<Segment>)
    ensures Truthy(Value(j, path)) ==> Extract(j, path).Some?
  {
  }

  /** A lookup through a list position of a value that is not a list is absent, not an error. */
  lemma {:induction false} ShapeMismatchIsAbsent(j: Json, k: string, n: nat, rest: seq<Segment>)
    requires j.JObj? && k in j.fields && !j.fields[k].JArr?
    ensures Extract(j, [Key(k), Index(n)] + rest) == None
  {
    assert ([Key(k), Index(n)] + rest)[1..] == [Index(n)] + rest;
    assert ([Index(n)] + rest)[1..] == rest;
  }
}
