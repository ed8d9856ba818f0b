/** The boolean kind: its field initialiser replaces the document by `{ type: 'boolean' }`. */
module BooleanKind {
  import opened JsonDoc
  import opened Base

  method New() returns (s: Schema)
    ensures fresh(s)
    ensures s.plain == map["type" := JStr("boolean")]
    ensures s.isRequired && s.schemaUri == Draft07 && s.definitions == None
  {
    s := new Schema();
    s.plain := map["type" := JStr(BooleanType.Name())];
  }
}
