/** The enum kind: a node built with `enum` already set. */
module EnumKind {
  import opened JsonDoc
  import opened Base

  /** `new EnumSchema(...values)`: `super()`, then the values in argument order under `enum`. */
  method New(values: seq<Json>) returns (s: Schema)
    ensures fresh(s)
    ensures Patched(Initial, s.Value(), map["enum" := JArr(values)])
  {
    s := new Schema();
    s.plain := s.plain["enum" := JArr(values)];
  }
}
