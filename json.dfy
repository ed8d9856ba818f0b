/** JSON values and schema documents, as the builder emits them. */
module JsonDoc {

  /** A JSON value. Numbers are integers here: the builder only copies them. */
  datatype Json =
    | JNull
    | JBool(b: bool)
    | JNum(n: int)
    | JStr(s: string)
    | JArr(elems: seq<Json>)
    | JObj(fields: map<string, Json>)

  /** A schema document: the top-level keywords of one schema and their values. */
  type Doc = map<string, Json>

  datatype Option<+T> = None | Some(value: T)

  /** The object spread `{ ...a, ...b }`: the keys of both, and `b` wins on a shared key. */
  function Spread(a: Doc, b: Doc): (r: Doc)
    ensures r.Keys == a.Keys + b.Keys
    ensures forall k :: k in b ==> r[k] == b[k]
    ensures forall k :: k in a && k !in b ==> r[k] == a[k]
  {
    a + b
  }

  /** A list of names as the JSON array of strings a schema stores. */
  function Strings(names: seq<string>): (r: seq<Json>)
    ensures |r| == |names|
    ensures forall i :: 0 <= i < |names| ==> r[i] == JStr(names[i])
  {
    if names == [] then [] else [JStr(names[0])] + Strings(names[1..])
  }

  /** Writing a key twice leaves only the second write. */
  lemma Overwrite(d: Doc, k: string, v: Json, w: Json)
    ensures d[k := v][k := w] == d[k := w]
  {
  }
}
