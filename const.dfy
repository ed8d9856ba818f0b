/** The const kind: a node built with `const` already set. */
module ConstKind {
  import opened JsonDoc
  import opened Base

  /** `new ConstSchema(value)`: `super()`, then the value under `const`. */
  method New(value: Json) returns (s: Schema)
    ensures fresh(s)
    ensures Patched(Initial, s.Value(), map["const" := value])
  {
    s := new Schema();
    s.plain := s.plain["const" := value];
  }
}
