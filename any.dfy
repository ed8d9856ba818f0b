/** The any kind: its field initialiser sets the empty document, which accepts every value. */
module AnyKind {
  import opened JsonDoc
  import opened Base

  method New() returns (s: Schema)
    ensures fresh(s)
    ensures s.plain == map[]
    ensures s.isRequired && s.schemaUri == Draft07 && s.definitions == None
  {
    s := new Schema();
    s.plain := map[];
  }
}
