/**
 * The entry surface `S`: one constructor per kind, and the base-node
 * shortcuts that make a new node and apply one builder to it. `shape` folds
 * `prop` over a map of named children.
 */
module Factory {
  import opened JsonDoc
  import Base
  import ObjectKind
  import ArrayKind
  import StringKind
  import NumericKind

  function String(): (n: Base.Node)
    ensures n == Base.Node(map["type" := JStr("string")], true, Base.Draft07, None)
  {
    StringKind.New()
  }

  /**
   * `S.string().anyOf(...schemas)`: a setter inherited from the base class,
   * applied in place to the object behind a string node.
   */
  method StringAnyOf(schemas: seq<Base.Node>) returns (s: Base.Schema)
    ensures fresh(s)
    ensures Base.Patched(String(), s.Value(), map["anyOf" := JArr(Base.Plains(schemas))])
    ensures s.plain == map["type" := JStr("string"), "anyOf" := JArr(Base.Plains(schemas))]
  {
    s := new Base.Schema.Of(String());
    s := s.AnyOf(schemas);
  }

  method Number() returns (s: Base.Schema)
    ensures fresh(s)
    ensures s.Value() == Base.Node(map["type" := JStr("number")], true, Base.Draft07, None)
  {
    s := NumericKind.New(Base.NumberType);
  }

  method Integer() returns (s: Base.Schema)
    ensures fresh(s)
    ensures s.Value() == Base.Node(map["type" := JStr("integer")], true, Base.Draft07, None)
  {
    s := NumericKind.New(Base.IntegerType);
  }

  /** `new BaseSchema().as('boolean')`: a base node, not a BooleanSchema. */
  method Boolean() returns (s: Base.Schema)
    ensures fresh(s)
    ensures s.plain == map["type" := JStr("boolean")]
    ensures s.isRequired && s.schemaUri == Base.Draft07 && s.definitions == None
  {
    s := new Base.Schema();
    s := s.As(Base.BooleanType);
  }

  /** `new BaseSchema().as('null')`: a base node, not a NullSchema. */
  method Null() returns (s: Base.Schema)
    ensures fresh(s)
    ensures s.plain == map["type" := JStr("null")]
    ensures s.isRequired && s.schemaUri == Base.Draft07 && s.definitions == None
  {
    s := new Base.Schema();
    s := s.As(Base.NullType);
  }

  function Array(): (n: Base.Node)
    ensures n == Base.Node(map["type" := JStr("array")], true, Base.Draft07, None)
  {
    ArrayKind.New()
  }

  /** `list(item)` is `array().items(item)`: an array node whose every element follows `item`. */
  function List(item: Base.Node): (n: Base.Node)
    ensures n == ArrayKind.Items(ArrayKind.New(), ArrayKind.Single(item))
    ensures n.plain == map["type" := JStr("array"), "items" := JObj(item.plain)]
    ensures n.isRequired && n.schemaUri == Base.Draft07 && n.definitions == None
  {
    ArrayKind.Items(Array(), ArrayKind.Single(item))
  }

  method Object() returns (s: Base.Schema)
    ensures fresh(s)
    ensures s.Value() == Base.Node(map["type" := JStr("object")], true, Base.Draft07, None)
  {
    s := ObjectKind.New();
  }

  /** The document `shape` starts from: `new ObjectSchema().additionalProperties(false)`. */
  const ShapeStart: Doc := map["type" := JStr("object"), "additionalProperties" := JBool(false)]

  /** The document after registering `props`, in order, on top of `d`. */
  function PropsFold(d: Doc, props: seq<(string, Base.Node)>): (r: Doc)
    requires ObjectKind.WellShaped(d)
    ensures ObjectKind.WellShaped(r)
    decreases |props|
  {
    if props == [] then d
    else
      var last := props[|props| - 1];
      ObjectKind.PropDoc(PropsFold(d, props[..|props| - 1]), last.0, last.1)
  }

  /** The names of the children. */
  ghost function Names(props: seq<(string, Base.Node)>): set<string> {
    set i | 0 <= i < |props| :: props[i].0
  }

  /** JS object keys are distinct. */
  ghost predicate DistinctNames(props: seq<(string, Base.Node)>) {
    forall i, j :: 0 <= i < j < |props| ==> props[i].0 != props[j].0
  }

  /** The names of the required children, in the order of `props`. */
  function RequiredNames(props: seq<(string, Base.Node)>): seq<string>
    decreases |props|
  {
    if props == [] then []
    else
      var last := props[|props| - 1];
      RequiredNames(props[..|props| - 1]) + (if last.1.isRequired then [last.0] else [])
  }

  /** A name is listed exactly when some child of that name is required. */
  lemma {:induction false} RequiredNamesMembers(props: seq<(string, Base.Node)>, x: string)
    ensures x in RequiredNames(props) <==>
              exists i :: 0 <= i < |props| && props[i].0 == x && props[i].1.isRequired
    decreases |props|
  {
    if props != [] {
      var init := props[..|props| - 1];
      RequiredNamesMembers(init, x);
      if x in RequiredNames(init) {
        var i :| 0 <= i < |init| && init[i].0 == x && init[i].1.isRequired;
        assert props[i] == init[i];
      }
      if exists i :: 0 <= i < |props| && props[i].0 == x && props[i].1.isRequired {
        var i :| 0 <= i < |props| && props[i].0 == x && props[i].1.isRequired;
        if i < |init| {
          assert init[i] == props[i];
        }
      }
    }
  }

  lemma StringsAppend(a: seq<string>, b: seq<string>)
    ensures Strings(a + b) == Strings(a) + Strings(b)
  {
    assert |Strings(a + b)| == |Strings(a) + Strings(b)|;
    forall i | 0 <= i < |a + b|
      ensures Strings(a + b)[i] == (Strings(a) + Strings(b))[i]
    {
      if i < |a| {
        assert (a + b)[i] == a[i];
      } else {
        assert (a + b)[i] == b[i - |a|];
      }
    }
  }

  /** Folding `prop` appends the required children's names, in order, to `required`. */
  lemma {:induction false} FoldRequired(d: Doc, props: seq<(string, Base.Node)>)
    requires ObjectKind.WellShaped(d)
    ensures ObjectKind.RequiredList(PropsFold(d, props)) == ObjectKind.RequiredList(d) + Strings(RequiredNames(props))
    decreases |props|
  {
    if props != [] {
      var init := props[..|props| - 1];
      var last := props[|props| - 1];
      FoldRequired(d, init);
      StringsAppend(RequiredNames(init), if last.1.isRequired then [last.0] else []);
    }
  }

  /** The names of a sequence of children are those of all but the last, plus the last. */
  lemma NamesSnoc(props: seq<(string, Base.Node)>)
    requires props != []
    ensures Names(props) == Names(props[..|props| - 1]) + {props[|props| - 1].0}
  {
    var init := props[..|props| - 1];
    forall x | x in Names(props) ensures x in Names(init) + {props[|props| - 1].0} {
      var i :| 0 <= i < |props| && props[i].0 == x;
      if i < |init| { assert init[i] == props[i]; }
    }
    forall x | x in Names(init) ensures x in Names(props) {
      var i :| 0 <= i < |init| && init[i].0 == x;
      assert props[i] == init[i];
    }
  }

  /** Folding `prop` registers exactly the children's names as properties. */
  lemma {:induction false} FoldPropertyNames(d: Doc, props: seq<(string, Base.Node)>)
    requires ObjectKind.WellShaped(d)
    ensures ObjectKind.Properties(PropsFold(d, props)).Keys == ObjectKind.Properties(d).Keys + Names(props)
    decreases |props|
  {
    if props != [] {
      FoldPropertyNames(d, props[..|props| - 1]);
      NamesSnoc(props);
    }
  }

  /** With distinct names, every property holds its own child's document. */
  lemma {:induction false} FoldPropertyValues(d: Doc, props: seq<(string, Base.Node)>)
    requires ObjectKind.WellShaped(d)
    requires DistinctNames(props)
    ensures forall i :: 0 <= i < |props| ==>
              props[i].0 in ObjectKind.Properties(PropsFold(d, props))
              && ObjectKind.Properties(PropsFold(d, props))[props[i].0] == JObj(props[i].1.plain)
    decreases |props|
  {
    if props != [] {
      var init := props[..|props| - 1];
      var last := props[|props| - 1];
      assert DistinctNames(init) by {
        forall i, j | 0 <= i < j < |init| ensures init[i].0 != init[j].0 {
          assert init[i] == props[i] && init[j] == props[j];
        }
      }
      FoldPropertyValues(d, init);
      var before := ObjectKind.Properties(PropsFold(d, init));
      var after := ObjectKind.Properties(PropsFold(d, props));
      forall i | 0 <= i < |props|
        ensures props[i].0 in after && after[props[i].0] == JObj(props[i].1.plain)
      {
        if i < |init| {
          assert init[i] == props[i];
          assert props[i].0 != last.0;
          assert props[i].0 in before;
        }
      }
    }
  }

  lemma FoldPropertyValuesWhenDistinct(d: Doc, props: seq<(string, Base.Node)>)
    requires ObjectKind.WellShaped(d)
    ensures DistinctNames(props) ==> forall i :: 0 <= i < |props| ==>
              props[i].0 in ObjectKind.Properties(PropsFold(d, props))
              && ObjectKind.Properties(PropsFold(d, props))[props[i].0] == JObj(props[i].1.plain)
  {
    if DistinctNames(props) {
      FoldPropertyValues(d, props);
    }
  }

  /**
   * Folding `prop` adds `properties` once there is a child and `required` once
   * there is a required child; every other key keeps its value.
   */
  lemma {:induction false} FoldKeys(d: Doc, props: seq<(string, Base.Node)>)
    requires ObjectKind.WellShaped(d)
    ensures PropsFold(d, props).Keys == d.Keys
                                       + (if props != [] then {"properties"} else {})
                                       + (if RequiredNames(props) != [] then {"required"} else {})
    ensures forall k :: k in d && k != "properties" && k != "required" ==> PropsFold(d, props)[k] == d[k]
    decreases |props|
  {
    if props != [] {
      FoldKeys(d, props[..|props| - 1]);
    }
  }

  lemma ShapeStartFacts()
    ensures ObjectKind.WellShaped(ShapeStart)
    ensures ShapeStart.Keys == {"type", "additionalProperties"}
    ensures ShapeStart["type"] == JStr("object") && ShapeStart["additionalProperties"] == JBool(false)
    ensures ObjectKind.Properties(ShapeStart) == map[] && ObjectKind.RequiredList(ShapeStart) == []
  {
  }

  /**
   * The document `shape(props)` produces: a closed object type whose
   * properties are exactly the children, and whose `required` lists exactly
   * the required children in the order of `props`.
   */
  function ShapeDoc(props: seq<(string, Base.Node)>): (r: Doc)
    ensures ObjectKind.WellShaped(r)
    ensures r.Keys == {"type", "additionalProperties"}
                      + (if props != [] then {"properties"} else {})
                      + (if RequiredNames(props) != [] then {"required"} else {})
    ensures r["type"] == JStr("object") && r["additionalProperties"] == JBool(false)
    ensures ObjectKind.Properties(r).Keys == Names(props)
    ensures ObjectKind.RequiredList(r) == Strings(RequiredNames(props))
    ensures DistinctNames(props) ==>
              forall i :: 0 <= i < |props| ==> ObjectKind.Properties(r)[props[i].0] == JObj(props[i].1.plain)
  {
    ShapeStartFacts();
    FoldKeys(ShapeStart, props);
    FoldPropertyNames(ShapeStart, props);
    FoldRequired(ShapeStart, props);
    FoldPropertyValuesWhenDistinct(ShapeStart, props);
    PropsFold(ShapeStart, props)
  }

  /** The `for ... in` loop of `shape`: `prop` for each child in iteration order. */
  method PropEach(r: Base.Schema, props: seq<(string, Base.Node)>)
    requires ObjectKind.WellShaped(r.plain)
    modifies r
    ensures r.plain == PropsFold(old(r.plain), props)
    ensures r.isRequired == old(r.isRequired) && r.schemaUri == old(r.schemaUri)
    ensures r.definitions == old(r.definitions)
  {
    var i := 0;
    while i < |props|
      invariant 0 <= i <= |props|
      invariant r.plain == PropsFold(old(r.plain), props[..i])
      invariant r.isRequired == old(r.isRequired) && r.schemaUri == old(r.schemaUri)
      invariant r.definitions == old(r.definitions)
    {
      assert props[..i + 1][..i] == props[..i];
      var _ := ObjectKind.Prop(r, props[i].0, props[i].1);
      i := i + 1;
    }
    assert props[..i] == props;
  }

  /** `shape(props)`: a closed object, then `prop` for each child in iteration order. */
  method Shape(props: seq<(string, Base.Node)>) returns (r: Base.Schema)
    ensures fresh(r)
    ensures r.Value() == Base.Node(ShapeDoc(props), true, Base.Draft07, None)
  {
    r := ObjectKind.New();
    r := ObjectKind.AdditionalProperties(r, Base.Flag(false));
    assert r.plain == ShapeStart;
    PropEach(r, props);
  }

  method Enum(values: seq<Json>) returns (s: Base.Schema)
    ensures fresh(s)
    ensures Base.Patched(Base.Initial, s.Value(), map["enum" := JArr(values)])
  {
    s := new Base.Schema();
    s := s.Enum(values);
  }

  method Const(value: Json) returns (s: Base.Schema)
    ensures fresh(s)
    ensures Base.Patched(Base.Initial, s.Value(), map["const" := value])
  {
    s := new Base.Schema();
    s := s.Const(value);
  }

  method AnyOf(schemas: seq<Base.Node>) returns (s: Base.Schema)
    ensures fresh(s)
    ensures Base.Patched(Base.Initial, s.Value(), map["anyOf" := JArr(Base.Plains(schemas))])
  {
    s := new Base.Schema();
    s := s.AnyOf(schemas);
  }

  method AllOf(schemas: seq<Base.Node>) returns (s: Base.Schema)
    ensures fresh(s)
    ensures Base.Patched(Base.Initial, s.Value(), map["allOf" := JArr(Base.Plains(schemas))])
  {
    s := new Base.Schema();
    s := s.AllOf(schemas);
  }

  method OneOf(schemas: seq<Base.Node>) returns (s: Base.Schema)
    ensures fresh(s)
    ensures Base.Patched(Base.Initial, s.Value(), map["oneOf" := JArr(Base.Plains(schemas))])
  {
    s := new Base.Schema();
    s := s.OneOf(schemas);
  }

  method Not(schemas: seq<Base.Node>) returns (s: Base.Schema)
    ensures fresh(s)
    ensures Base.Patched(Base.Initial, s.Value(), map["not" := JArr(Base.Plains(schemas))])
  {
    s := new Base.Schema();
    s := s.Not(schemas);
  }

  method Any() returns (s: Base.Schema)
    ensures fresh(s)
    ensures s.Value() == Base.Initial
  {
    s := new Base.Schema();
  }

  method Raw(fragment: Doc) returns (s: Base.Schema)
    ensures fresh(s)
    ensures Base.Patched(Base.Initial, s.Value(), fragment)
    ensures s.plain == fragment
  {
    s := new Base.Schema();
    s := s.Raw(fragment);
  }

  method Id(id: string) returns (s: Base.Schema)
    ensures fresh(s)
    ensures Base.Patched(Base.Initial, s.Value(), map["$id" := JStr(id)])
  {
    s := new Base.Schema();
    s := s.Id(id);
  }

  /** `schema(uri)` as written: the base setter returns nothing, so neither does the factory. */
  method SchemaAsWritten(uri: string) returns (result: Option<Base.Schema>)
    ensures result == None
  {
    var s := new Base.Schema();
    s.SchemaUri(uri);
    result := None;
  }

  /** `schema(uri)` returning the node it configured, whose `valueOf()` carries the URI. */
  method Schema(uri: string) returns (s: Base.Schema)
    ensures fresh(s)
    ensures s.plain == map[] && s.isRequired && s.schemaUri == uri && s.definitions == None
    ensures uri != "" ==> s.Value().ValueOf() == map["$schema" := JStr(uri)]
  {
    s := new Base.Schema();
    s.SchemaUri(uri);
  }

  method Ref(ref: string) returns (s: Base.Schema)
    ensures fresh(s)
    ensures Base.Patched(Base.Initial, s.Value(), map["$ref" := JStr(ref)])
  {
    s := new Base.Schema();
    s := s.Ref(ref);
  }

  method Title(title: string) returns (s: Base.Schema)
    ensures fresh(s)
    ensures Base.Patched(Base.Initial, s.Value(), map["title" := JStr(title)])
  {
    s := new Base.Schema();
    s := s.Title(title);
  }

  method Description(description: string) returns (s: Base.Schema)
    ensures fresh(s)
    ensures Base.Patched(Base.Initial, s.Value(), map["description" := JStr(description)])
  {
    s := new Base.Schema();
    s := s.Description(description);
  }

  method Examples(values: seq<Json>) returns (s: Base.Schema)
    ensures fresh(s)
    ensures Base.Patched(Base.Initial, s.Value(), map["examples" := JArr(values)])
  {
    s := new Base.Schema();
    s := s.Examples(values);
  }

  method Default(def: Json) returns (s: Base.Schema)
    ensures fresh(s)
    ensures Base.Patched(Base.Initial, s.Value(), map["default" := def])
  {
    s := new Base.Schema();
    s := s.Default(def);
  }

  /** `definition(name, d)`: a new node whose only definition is `name`, emitted by `valueOf()`. */
  method Definition(name: string, d: Base.Node) returns (s: Base.Schema)
    ensures fresh(s)
    ensures s.plain == map[] && s.isRequired && s.schemaUri == Base.Draft07
    ensures s.definitions == Some(map[name := JObj(d.plain)])
    ensures s.Value().ValueOf()["definitions"] == JObj(map[name := JObj(d.plain)])
  {
    s := new Base.Schema();
    s := s.Definition(name, d);
    assert s.definitions.value == map[name := JObj(d.plain)];
  }
}
