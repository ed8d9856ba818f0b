/** The combining kind: a node built with one combinator key already set. */
module CombiningKind {
  import opened JsonDoc
  import opened Base

  datatype Combinator = OneOf | AllOf | AnyOf | Not
  {
    function Key(): (k: string)
      ensures k in {"oneOf", "allOf", "anyOf", "not"}
    {
      match this
      case OneOf => "oneOf"
      case AllOf => "allOf"
      case AnyOf => "anyOf"
      case Not => "not"
    }
  }

  /** Different combinators write different keys. */
  lemma KeysDistinct(c: Combinator, d: Combinator)
    requires c != d
    ensures c.Key() != d.Key()
  {
  }

  /**
   * `new CombiningSchema(c, ...schemas)`: `super()`, then the children's
   * documents, in order, under the key of `c` and under no other combinator key.
   */
  method New(c: Combinator, schemas: seq<Node>) returns (s: Schema)
    ensures fresh(s)
    ensures Patched(Initial, s.Value(), map[c.Key() := JArr(Plains(schemas))])
    ensures forall d: Combinator :: d != c ==> d.Key() !in s.plain
  {
    s := new Schema();
    s.plain := s.plain[c.Key() := JArr(Plains(schemas))];
  }
}
