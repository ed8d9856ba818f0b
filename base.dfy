/**
 * The schema node every kind builds on: a JSON document `plain`, the flag
 * `isRequired`, the `$schema` URI and an optional `definitions` map, with the
 * universal setters, the combinators, the flag and `valueOf`.
 */
module Base {
  import opened JsonDoc

  /** The `$schema` a new node carries: JSON Schema draft-07. */
  const Draft07: string := "http://json-schema.org/draft-07/schema#"

  /** The values `as(t)` and the typed kinds write under `type`. */
  datatype JsonType = BooleanType | NullType | ArrayType | ObjectType | StringType | NumberType | IntegerType
  {
    function Name(): (s: string)
      ensures s in {"boolean", "null", "array", "object", "string", "number", "integer"}
    {
      match this
      case BooleanType => "boolean"
      case NullType => "null"
      case ArrayType => "array"
      case ObjectType => "object"
      case StringType => "string"
      case NumberType => "number"
      case IntegerType => "integer"
    }
  }

  /** An argument that is either a boolean or a schema (additionalProperties, additionalItems). */
  datatype BoolOrSchema = Flag(b: bool) | Sub(schema: Node)

  /** What the builder stores for a `BoolOrSchema`: the boolean verbatim, or the schema's document. */
  function BoolOrSchemaJson(x: BoolOrSchema): (j: Json)
    ensures x.Flag? ==> j == JBool(x.b)
    ensures x.Sub? ==> j == JObj(x.schema.plain)
  {
    match x
    case Flag(b) => JBool(b)
    case Sub(n) => JObj(n.plain)
  }

  /** The fields of one schema object, as a value. */
  datatype Node = Node(plain: Doc, isRequired: bool, schemaUri: string, definitions: Option<Doc>)
  {
    /** The definitions collected so far; an unset map reads as empty (the object spread of `undefined`). */
    function Definitions(): (d: Doc)
      ensures definitions.Some? ==> d == definitions.value
      ensures definitions.None? ==> d == map[]
    {
      if definitions.Some? then definitions.value else map[]
    }

    /**
     * `valueOf()`: the document with `$schema` added when the URI is non-empty
     * and `definitions` added when set; both win over same-named keys of `plain`.
     * Being a function, two calls on the same node agree and change nothing.
     */
    function ValueOf(): (d: Doc)
      ensures d.Keys == plain.Keys
                        + (if schemaUri != "" then {"$schema"} else {})
                        + (if definitions.Some? then {"definitions"} else {})
      ensures forall k :: k in plain && k != "$schema" && k != "definitions" ==> d[k] == plain[k]
      ensures schemaUri != "" ==> d["$schema"] == JStr(schemaUri)
      ensures schemaUri == "" && "$schema" in plain ==> d["$schema"] == plain["$schema"]
      ensures definitions.Some? ==> d["definitions"] == JObj(definitions.value)
      ensures definitions.None? && "definitions" in plain ==> d["definitions"] == plain["definitions"]
    {
      var withUri := if schemaUri != "" then Spread(plain, map["$schema" := JStr(schemaUri)]) else plain;
      if definitions.Some? then Spread(withUri, map["definitions" := JObj(definitions.value)]) else withUri
    }
  }

  /** The state of `new BaseSchema()`: empty document, required, draft-07, no definitions. */
  const Initial: Node := Node(map[], true, Draft07, None)

  /**
   * `after` is `before` with the keys of `patch` written into the document:
   * every key of `patch` holds the patch's value, every other key keeps its old
   * value, no key disappears, and the flag, `$schema` and definitions are kept.
   */
  ghost predicate Patched(before: Node, after: Node, patch: Doc) {
    && after.plain.Keys == before.plain.Keys + patch.Keys
    && (forall k :: k in patch ==> k in after.plain && after.plain[k] == patch[k])
    && (forall k :: k in before.plain && k !in patch ==> k in after.plain && after.plain[k] == before.plain[k])
    && after.isRequired == before.isRequired
    && after.schemaUri == before.schemaUri
    && after.definitions == before.definitions
  }

  /** Writing one key of the document patches that key alone. */
  lemma UpdateIsPatched(before: Node, key: string, value: Json)
    ensures Patched(before, before.(plain := before.plain[key := value]), map[key := value])
  {
  }

  /** Chained setters: two patches in a row are one patch, the later one winning. */
  lemma PatchedChains(a: Node, b: Node, c: Node, p: Doc, q: Doc)
    requires Patched(a, b, p) && Patched(b, c, q)
    ensures Patched(a, c, Spread(p, q))
  {
  }

  /**
   * What a setter writes is what `valueOf()` emits, except under the two keys
   * `valueOf()` itself supplies (`$schema` when the URI is set, `definitions` when set).
   */
  lemma PatchedShows(before: Node, after: Node, patch: Doc)
    requires Patched(before, after, patch)
    ensures forall k :: k in patch && k != "$schema" && k != "definitions" ==>
              k in after.ValueOf() && after.ValueOf()[k] == patch[k]
    ensures after.ValueOf().Keys == before.ValueOf().Keys + patch.Keys
  {
  }

  /** `after` differs from `before` at most in the flag, which is `b`. */
  ghost predicate FlagSet(before: Node, after: Node, b: bool) {
    && after.plain == before.plain
    && after.isRequired == b
    && after.schemaUri == before.schemaUri
    && after.definitions == before.definitions
  }

  /** `copyWith({ plain: patch })`: a new node whose document is the old one overwritten by `patch`. */
  function CopyWith(n: Node, patch: Doc): (r: Node)
    ensures Patched(n, r, patch)
  {
    n.(plain := Spread(n.plain, patch))
  }

  /** `copyWith({ isRequired: b })`: a new node with only the flag changed. */
  function CopyWithRequired(n: Node, b: bool): (r: Node)
    ensures FlagSet(n, r, b)
  {
    n.(isRequired := b)
  }

  /** Patched pins the new node down completely: two nodes that both satisfy it are equal. */
  lemma PatchedDetermines(before: Node, a: Node, b: Node, patch: Doc)
    requires Patched(before, a, patch) && Patched(before, b, patch)
    ensures a == b
  {
    assert forall k :: k in a.plain ==> a.plain[k] == b.plain[k];
    assert a.plain == b.plain;
  }

  /** Two copy-on-write steps are one step with the merged patch, the later patch winning. */
  lemma CopyWithComposes(n: Node, p: Doc, q: Doc)
    ensures CopyWith(CopyWith(n, p), q) == CopyWith(n, Spread(p, q))
  {
    var lhs := CopyWith(CopyWith(n, p), q);
    var rhs := CopyWith(n, Spread(p, q));
    assert Patched(n, lhs, Spread(p, q));
    PatchedDetermines(n, lhs, rhs, Spread(p, q));
  }

  /** Applying the same builder twice is the same as applying it once. */
  lemma CopyWithIdempotent(n: Node, p: Doc)
    ensures CopyWith(CopyWith(n, p), p) == CopyWith(n, p)
  {
    CopyWithComposes(n, p, p);
    assert Spread(p, p) == p;
  }

  /** Builders that write disjoint keys can be applied in either order. */
  lemma CopyWithCommutes(n: Node, p: Doc, q: Doc)
    requires p.Keys !! q.Keys
    ensures CopyWith(CopyWith(n, p), q) == CopyWith(CopyWith(n, q), p)
  {
    CopyWithComposes(n, p, q);
    CopyWithComposes(n, q, p);
    assert Spread(p, q) == Spread(q, p);
  }

  /** `schemas.map(schema => schema.plain)`: the children's documents, same count and order. */
  function Plains(schemas: seq<Node>): (r: seq<Json>)
    ensures |r| == |schemas|
    ensures forall i :: 0 <= i < |schemas| ==> r[i] == JObj(schemas[i].plain)
  {
    if schemas == [] then [] else [JObj(schemas[0].plain)] + Plains(schemas[1..])
  }

  /** One schema object. Its methods write into its own fields, as the setters of the source do. */
  class Schema {
    var plain: Doc
    var isRequired: bool
    var schemaUri: string
    var definitions: Option<Doc>

    function Value(): Node
      reads this
    {
      Node(plain, isRequired, schemaUri, definitions)
    }

    /** `new BaseSchema()`. */
    constructor ()
      ensures plain == map[] && isRequired && schemaUri == Draft07 && definitions == None
      ensures Value() == Initial
    {
      plain := map[];
      isRequired := true;
      schemaUri := Draft07;
      definitions := None;
    }

    /**
     * The object behind a copy-on-write node (an array or string node that
     * `copyWith` returned): every inherited setter applies to it in place.
     */
    constructor Of(n: Node)
      ensures Value() == n
    {
      plain := n.plain;
      isRequired := n.isRequired;
      schemaUri := n.schemaUri;
      definitions := n.definitions;
    }

    method Id(id: string) returns (r: Schema)
      modifies this
      ensures r == this
      ensures Patched(old(Value()), Value(), map["$id" := JStr(id)])
    {
      plain := plain["$id" := JStr(id)];
      r := this;
    }

    method Ref(ref: string) returns (r: Schema)
      modifies this
      ensures r == this
      ensures Patched(old(Value()), Value(), map["$ref" := JStr(ref)])
    {
      plain := plain["$ref" := JStr(ref)];
      r := this;
    }

    /** `schema(uri)`: sets the `$schema` field only; as in the source it returns nothing. */
    method SchemaUri(uri: string)
      modifies this
      ensures schemaUri == uri
      ensures plain == old(plain) && isRequired == old(isRequired) && definitions == old(definitions)
    {
      schemaUri := uri;
    }

    method Title(title: string) returns (r: Schema)
      modifies this
      ensures r == this
      ensures Patched(old(Value()), Value(), map["title" := JStr(title)])
    {
      plain := plain["title" := JStr(title)];
      r := this;
    }

    method Description(description: string) returns (r: Schema)
      modifies this
      ensures r == this
      ensures Patched(old(Value()), Value(), map["description" := JStr(description)])
    {
      plain := plain["description" := JStr(description)];
      r := this;
    }

    /** `examples(...values)`: the values as one array, in argument order. */
    method Examples(values: seq<Json>) returns (r: Schema)
      modifies this
      ensures r == this
      ensures Patched(old(Value()), Value(), map["examples" := JArr(values)])
    {
      plain := plain["examples" := JArr(values)];
      r := this;
    }

    method Default(def: Json) returns (r: Schema)
      modifies this
      ensures r == this
      ensures Patched(old(Value()), Value(), map["default" := def])
    {
      plain := plain["default" := def];
      r := this;
    }

    /** `definition(name, d)`: adds or replaces one definition, keeping all the others. */
    method Definition(name: string, d: Node) returns (r: Schema)
      modifies this
      ensures r == this
      ensures plain == old(plain) && isRequired == old(isRequired) && schemaUri == old(schemaUri)
      ensures definitions.Some?
      ensures definitions.value.Keys == old(Value().Definitions()).Keys + {name}
      ensures definitions.value[name] == JObj(d.plain)
      ensures forall k :: k in old(Value().Definitions()) && k != name ==>
                definitions.value[k] == old(Value().Definitions())[k]
    {
      definitions := Some(Spread(Value().Definitions(), map[name := JObj(d.plain)]));
      r := this;
    }

    /** `raw(fragment)`: merges the fragment into the document, the fragment winning. */
    method Raw(fragment: Doc) returns (r: Schema)
      modifies this
      ensures r == this
      ensures Patched(old(Value()), Value(), fragment)
    {
      plain := Spread(plain, fragment);
      r := this;
    }

    method Enum(values: seq<Json>) returns (r: Schema)
      modifies this
      ensures r == this
      ensures Patched(old(Value()), Value(), map["enum" := JArr(values)])
    {
      plain := Spread(plain, map["enum" := JArr(values)]);
      r := this;
    }

    method Const(value: Json) returns (r: Schema)
      modifies this
      ensures r == this
      ensures Patched(old(Value()), Value(), map["const" := value])
    {
      plain := Spread(plain, map["const" := value]);
      r := this;
    }

    method AnyOf(schemas: seq<Node>) returns (r: Schema)
      modifies this
      ensures r == this
      ensures Patched(old(Value()), Value(), map["anyOf" := JArr(Plains(schemas))])
    {
      plain := Spread(plain, map["anyOf" := JArr(Plains(schemas))]);
      r := this;
    }

    method AllOf(schemas: seq<Node>) returns (r: Schema)
      modifies this
      ensures r == this
      ensures Patched(old(Value()), Value(), map["allOf" := JArr(Plains(schemas))])
    {
      plain := Spread(plain, map["allOf" := JArr(Plains(schemas))]);
      r := this;
    }

    method OneOf(schemas: seq<Node>) returns (r: Schema)
      modifies this
      ensures r == this
      ensures Patched(old(Value()), Value(), map["oneOf" := JArr(Plains(schemas))])
    {
      plain := Spread(plain, map["oneOf" := JArr(Plains(schemas))]);
      r := this;
    }

    /** `not(...schemas)`: stores a list, like the other combinators. */
    method Not(schemas: seq<Node>) returns (r: Schema)
      modifies this
      ensures r == this
      ensures Patched(old(Value()), Value(), map["not" := JArr(Plains(schemas))])
    {
      plain := Spread(plain, map["not" := JArr(Plains(schemas))]);
      r := this;
    }

    method Optional() returns (r: Schema)
      modifies this
      ensures r == this
      ensures FlagSet(old(Value()), Value(), false)
    {
      isRequired := false;
      r := this;
    }

    method Required() returns (r: Schema)
      modifies this
      ensures r == this
      ensures FlagSet(old(Value()), Value(), true)
    {
      isRequired := true;
      r := this;
    }

    /** `as(t)`: writes the type name, nothing else. */
    method As(t: JsonType) returns (r: Schema)
      modifies this
      ensures r == this
      ensures Patched(old(Value()), Value(), map["type" := JStr(t.Name())])
    {
      plain := plain["type" := JStr(t.Name())];
      r := this;
    }
  }
}
