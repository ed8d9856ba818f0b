/**
 * The array kind. Every builder is copy-on-write: it returns a new node made by
 * `copyWith`, so the kind is modelled on node values and the receiver is never
 * changed.
 */
module ArrayKind {
  import opened JsonDoc
  import opened Base

  /** `new ArraySchema()`: a new node whose only keyword is `type: 'array'`. */
  function New(): (n: Node)
    ensures n.plain.Keys == {"type"} && n.plain["type"] == JStr("array")
    ensures n.isRequired && n.schemaUri == Draft07 && n.definitions == None
  {
    CopyWith(Initial, map["type" := JStr(ArrayType.Name())])
  }

  /** The argument of `items`: one schema for every element, or one per position. */
  datatype ItemsArg = Single(schema: Node) | Tuple(schemas: seq<Node>)

  /** Section 6.4.1 of draft-07 validation: `items` is a document or an array of documents. */
  function ItemsJson(items: ItemsArg): (j: Json)
    ensures items.Single? ==> j == JObj(items.schema.plain)
    ensures items.Tuple? ==> j.JArr? && |j.elems| == |items.schemas|
    ensures items.Tuple? ==> forall i :: 0 <= i < |items.schemas| ==> j.elems[i] == JObj(items.schemas[i].plain)
  {
    match items
    case Single(n) => JObj(n.plain)
    case Tuple(ns) => JArr(Plains(ns))
  }

  function Items(n: Node, items: ItemsArg): (r: Node)
    ensures Patched(n, r, map["items" := ItemsJson(items)])
  {
    CopyWith(n, map["items" := ItemsJson(items)])
  }

  /** `additionalItems(x)`: a boolean verbatim, or the schema's document. */
  function AdditionalItems(n: Node, x: BoolOrSchema): (r: Node)
    ensures Patched(n, r, map["additionalItems" := BoolOrSchemaJson(x)])
  {
    CopyWith(n, map["additionalItems" := BoolOrSchemaJson(x)])
  }

  function Contains(n: Node, contains: Node): (r: Node)
    ensures Patched(n, r, map["contains" := JObj(contains.plain)])
  {
    CopyWith(n, map["contains" := JObj(contains.plain)])
  }

  function MinItems(n: Node, minItems: int): (r: Node)
    ensures Patched(n, r, map["minItems" := JNum(minItems)])
  {
    CopyWith(n, map["minItems" := JNum(minItems)])
  }

  function MaxItems(n: Node, maxItems: int): (r: Node)
    ensures Patched(n, r, map["maxItems" := JNum(maxItems)])
  {
    CopyWith(n, map["maxItems" := JNum(maxItems)])
  }

  /** `uniqueItems(unique = true)`. */
  function UniqueItems(n: Node, unique: bool := true): (r: Node)
    ensures Patched(n, r, map["uniqueItems" := JBool(unique)])
  {
    CopyWith(n, map["uniqueItems" := JBool(unique)])
  }

  /** `optional()`: a new node that differs only in the flag. */
  function Optional(n: Node): (r: Node)
    ensures FlagSet(n, r, false)
  {
    CopyWithRequired(n, false)
  }

  /** Called without an argument, `uniqueItems` stores `true`. */
  lemma UniqueItemsDefault(n: Node)
    ensures UniqueItems(n).plain["uniqueItems"] == JBool(true)
    ensures UniqueItems(n) == UniqueItems(n, true)
  {
  }

  /** The bounds are independent keywords: setting them in either order gives the same node. */
  lemma BoundsCommute(n: Node, lo: int, hi: int)
    ensures MaxItems(MinItems(n, lo), hi) == MinItems(MaxItems(n, hi), lo)
  {
    CopyWithCommutes(n, map["minItems" := JNum(lo)], map["maxItems" := JNum(hi)]);
  }
}
