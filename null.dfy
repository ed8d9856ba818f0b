/** The null kind: its field initialiser replaces the document by `{ type: 'null' }`. */
module NullKind {
  import opened JsonDoc
  import opened Base

  method New() returns (s: Schema)
    ensures fresh(s)
    ensures s.plain == map["type" := JStr("null")]
    ensures s.isRequired && s.schemaUri == Draft07 && s.definitions == None
  {
    s := new Schema();
    s.plain := map["type" := JStr(NullType.Name())];
  }
}
