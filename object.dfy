/**
 * The object kind: a node whose document starts as `{ type: 'object' }` and
 * whose `prop` registers child schemas under `properties`, promoting required
 * children into the `required` list at registration time.
 */
module ObjectKind {
  import opened JsonDoc
  import opened Base

  /** `new ObjectSchema()`: the base initialisers, then the field initialiser `plain = { type: 'object' }`. */
  method New() returns (s: Schema)
    ensures fresh(s)
    ensures s.plain == map["type" := JStr("object")]
    ensures s.isRequired && s.schemaUri == Draft07 && s.definitions == None
  {
    s := new Schema();
    s.plain := map["type" := JStr("object")];
  }

  /**
   * The document keeps the declared types of `properties` (an object of
   * documents) and `required` (an array of names) wherever those keys are present.
   */
  ghost predicate WellShaped(d: Doc) {
    && ("properties" in d ==> d["properties"].JObj?)
    && ("required" in d ==> d["required"].JArr?)
  }

  /** The registered properties; absent reads as none (the spread of `undefined`). */
  function Properties(d: Doc): (m: map<string, Json>)
    requires WellShaped(d)
    ensures "properties" in d ==> JObj(m) == d["properties"]
    ensures "properties" !in d ==> m == map[]
  {
    if "properties" in d then d["properties"].fields else map[]
  }

  /** The `required` list; absent reads as empty (`this.plain.required || []`). */
  function RequiredList(d: Doc): (names: seq<Json>)
    requires WellShaped(d)
    ensures "required" in d ==> JArr(names) == d["required"]
    ensures "required" !in d ==> names == []
  {
    if "required" in d then d["required"].elems else []
  }

  /**
   * The document after `prop(name, child)`: the child's document is registered
   * under `name`, replacing an earlier one of that name, and `name` is appended
   * to the end of `required` exactly when the child is required (an existing
   * entry is not looked for). Every other key is untouched.
   */
  function PropDoc(d: Doc, name: string, child: Node): (r: Doc)
    requires WellShaped(d)
    ensures WellShaped(r)
    ensures Properties(r).Keys == Properties(d).Keys + {name}
    ensures Properties(r)[name] == JObj(child.plain)
    ensures forall p :: p in Properties(d) && p != name ==> Properties(r)[p] == Properties(d)[p]
    ensures RequiredList(r) == RequiredList(d) + (if child.isRequired then [JStr(name)] else [])
    ensures r.Keys == d.Keys + {"properties"} + (if child.isRequired then {"required"} else {})
    ensures forall k :: k in d && k != "properties" && (k != "required" || !child.isRequired) ==> r[k] == d[k]
  {
    var withProp := d["properties" := JObj(Spread(Properties(d), map[name := JObj(child.plain)]))];
    if child.isRequired then withProp["required" := JArr(RequiredList(d) + [JStr(name)])] else withProp
  }

  /**
   * Registering the same required child twice lists its name twice: `prop`
   * appends without looking for an existing entry.
   */
  lemma RequiredNotDeduplicated(d: Doc, name: string, child: Node)
    requires WellShaped(d) && child.isRequired
    ensures RequiredList(PropDoc(PropDoc(d, name, child), name, child))
            == RequiredList(d) + [JStr(name), JStr(name)]
    ensures Properties(PropDoc(PropDoc(d, name, child), name, child)) == Properties(PropDoc(d, name, child))
  {
    var once := PropDoc(d, name, child);
    var twice := PropDoc(once, name, child);
    assert Properties(twice).Keys == Properties(once).Keys;
  }

  /** `prop(name, child)`, updating the receiver's document in place. */
  method Prop(s: Schema, name: string, child: Node) returns (r: Schema)
    requires WellShaped(s.plain)
    modifies s
    ensures r == s
    ensures s.plain == PropDoc(old(s.plain), name, child)
    ensures s.isRequired == old(s.isRequired) && s.schemaUri == old(s.schemaUri) && s.definitions == old(s.definitions)
  {
    var props := if "properties" in s.plain then s.plain["properties"].fields else map[];
    s.plain := s.plain["properties" := JObj(Spread(props, map[name := JObj(child.plain)]))];
    if child.isRequired {
      var req := if "required" in s.plain then s.plain["required"].elems else [];
      s.plain := s.plain["required" := JArr(req + [JStr(name)])];
    }
    r := s;
  }

  /** `additionalProperties(x)`: a boolean verbatim, or the schema's document. */
  method AdditionalProperties(s: Schema, x: BoolOrSchema) returns (r: Schema)
    modifies s
    ensures r == s
    ensures Patched(old(s.Value()), s.Value(), map["additionalProperties" := BoolOrSchemaJson(x)])
  {
    s.plain := s.plain["additionalProperties" := BoolOrSchemaJson(x)];
    r := s;
  }

  /**
   * The JSON a validator sees for a schema object itself, rather than for its
   * document: its own fields `plain`, `isRequired`, `isTyperSchema`, `$schema`
   * and, once set, `definitions`.
   */
  function NodeObject(n: Node): (j: Json)
    ensures j.JObj?
    ensures j.fields.Keys == {"plain", "isRequired", "isTyperSchema", "$schema"}
                             + (if n.definitions.Some? then {"definitions"} else {})
    ensures j.fields["plain"] == JObj(n.plain)
  {
    var own := map["plain" := JObj(n.plain), "isRequired" := JBool(n.isRequired),
                   "isTyperSchema" := JBool(true), "$schema" := JStr(n.schemaUri)];
    JObj(if n.definitions.Some? then own["definitions" := JObj(n.definitions.value)] else own)
  }

  /** `propertyNames(names)` as written: it stores the schema object, not its document. */
  method PropertyNamesAsWritten(s: Schema, names: Node) returns (r: Schema)
    modifies s
    ensures r == s
    ensures Patched(old(s.Value()), s.Value(), map["propertyNames" := NodeObject(names)])
  {
    s.plain := s.plain["propertyNames" := NodeObject(names)];
    r := s;
  }

  /**
   * What `propertyNames` stores as written hides the name schema's keywords one
   * level down: a validator reading it finds no `type` and no `pattern`, so it
   * constrains no property name.
   */
  lemma PropertyNamesAsWrittenHidesKeywords(names: Node)
    requires "type" in names.plain
    ensures NodeObject(names) != JObj(names.plain)
    ensures "type" !in NodeObject(names).fields && "pattern" !in NodeObject(names).fields
  {
  }

  /** `propertyNames(names)` storing the name schema's document, as the keyword requires. */
  method PropertyNames(s: Schema, names: Node) returns (r: Schema)
    modifies s
    ensures r == s
    ensures Patched(old(s.Value()), s.Value(), map["propertyNames" := JObj(names.plain)])
  {
    s.plain := s.plain["propertyNames" := JObj(names.plain)];
    r := s;
  }

  method MinProperties(s: Schema, number: int) returns (r: Schema)
    modifies s
    ensures r == s
    ensures Patched(old(s.Value()), s.Value(), map["minProperties" := JNum(number)])
  {
    s.plain := s.plain["minProperties" := JNum(number)];
    r := s;
  }

  method MaxProperties(s: Schema, number: int) returns (r: Schema)
    modifies s
    ensures r == s
    ensures Patched(old(s.Value()), s.Value(), map["maxProperties" := JNum(number)])
  {
    s.plain := s.plain["maxProperties" := JNum(number)];
    r := s;
  }

  /** A value of the `dependencies` argument: a list of sibling names, or a schema. */
  datatype Dependency = Names(names: seq<string>) | DependentSchema(schema: Node)

  /** A schema becomes its document; a name list is stored verbatim. */
  function DependencyJson(d: Dependency): (j: Json)
    ensures d.Names? ==> j == JArr(Strings(d.names))
    ensures d.DependentSchema? ==> j == JObj(d.schema.plain)
  {
    match d
    case Names(ns) => JArr(Strings(ns))
    case DependentSchema(n) => JObj(n.plain)
  }

  /** The `dependencies` map built from the argument: the same keys, each value converted. */
  function DependenciesJson(deps: map<string, Dependency>): (m: map<string, Json>)
    ensures m.Keys == deps.Keys
    ensures forall k :: k in deps ==> m[k] == DependencyJson(deps[k])
  {
    map k | k in deps :: DependencyJson(deps[k])
  }

  /** The `dependencies` entries converted so far: those of the keys in `done`. */
  function DependenciesOver(deps: map<string, Dependency>, done: set<string>): (m: map<string, Json>)
    requires done <= deps.Keys
    ensures m.Keys == done
    ensures forall k :: k in done ==> m[k] == DependencyJson(deps[k])
  {
    map k | k in done :: DependencyJson(deps[k])
  }

  lemma DependenciesOverExtend(deps: map<string, Dependency>, todo: set<string>, dep: string)
    requires todo <= deps.Keys && dep in todo
    ensures DependenciesOver(deps, deps.Keys - todo)[dep := DependencyJson(deps[dep])]
            == DependenciesOver(deps, deps.Keys - (todo - {dep}))
  {
    assert deps.Keys - (todo - {dep}) == (deps.Keys - todo) + {dep};
  }

  /** `dependencies(deps)`: resets the map, then fills it one key at a time (for-in order is immaterial). */
  method Dependencies(s: Schema, deps: map<string, Dependency>) returns (r: Schema)
    modifies s
    ensures r == s
    ensures Patched(old(s.Value()), s.Value(), map["dependencies" := JObj(DependenciesJson(deps))])
  {
    ghost var start := s.Value();
    var entries: map<string, Json> := map[];
    s.plain := s.plain["dependencies" := JObj(entries)];
    var todo := deps.Keys;
    while todo != {}
      invariant todo <= deps.Keys
      invariant entries == DependenciesOver(deps, deps.Keys - todo)
      invariant s.Value() == start.(plain := start.plain["dependencies" := JObj(entries)])
      decreases todo
    {
      var dep :| dep in todo;
      var next := entries[dep := DependencyJson(deps[dep])];
      DependenciesOverExtend(deps, todo, dep);
      Overwrite(start.plain, "dependencies", JObj(entries), JObj(next));
      entries := next;
      s.plain := s.plain["dependencies" := JObj(entries)];
      todo := todo - {dep};
    }
    assert deps.Keys - todo == deps.Keys;
    assert entries == DependenciesJson(deps);
    UpdateIsPatched(start, "dependencies", JObj(entries));
    r := s;
  }

  /** The `patternProperties` map built from the argument: the same keys, each schema's document. */
  function PatternPropertiesJson(props: map<string, Node>): (m: map<string, Json>)
    ensures m.Keys == props.Keys
    ensures forall k :: k in props ==> m[k] == JObj(props[k].plain)
  {
    map k | k in props :: JObj(props[k].plain)
  }

  /** The `patternProperties` entries stored so far: those of the patterns in `done`. */
  function PatternPropertiesOver(props: map<string, Node>, done: set<string>): (m: map<string, Json>)
    requires done <= props.Keys
    ensures m.Keys == done
    ensures forall k :: k in done ==> m[k] == JObj(props[k].plain)
  {
    map k | k in done :: JObj(props[k].plain)
  }

  lemma PatternPropertiesOverExtend(props: map<string, Node>, todo: set<string>, pattern: string)
    requires todo <= props.Keys && pattern in todo
    ensures PatternPropertiesOver(props, props.Keys - todo)[pattern := JObj(props[pattern].plain)]
            == PatternPropertiesOver(props, props.Keys - (todo - {pattern}))
  {
    assert props.Keys - (todo - {pattern}) == (props.Keys - todo) + {pattern};
  }

  /** `patternProperties(props)`: resets the map, then fills it one pattern at a time. */
  method PatternProperties(s: Schema, props: map<string, Node>) returns (r: Schema)
    modifies s
    ensures r == s
    ensures Patched(old(s.Value()), s.Value(), map["patternProperties" := JObj(PatternPropertiesJson(props))])
  {
    ghost var start := s.Value();
    var entries: map<string, Json> := map[];
    s.plain := s.plain["patternProperties" := JObj(entries)];
    var todo := props.Keys;
    while todo != {}
      invariant todo <= props.Keys
      invariant entries == PatternPropertiesOver(props, props.Keys - todo)
      invariant s.Value() == start.(plain := start.plain["patternProperties" := JObj(entries)])
      decreases todo
    {
      var pattern :| pattern in todo;
      var next := entries[pattern := JObj(props[pattern].plain)];
      PatternPropertiesOverExtend(props, todo, pattern);
      Overwrite(start.plain, "patternProperties", JObj(entries), JObj(next));
      entries := next;
      s.plain := s.plain["patternProperties" := JObj(entries)];
      todo := todo - {pattern};
    }
    assert props.Keys - todo == props.Keys;
    assert entries == PatternPropertiesJson(props);
    UpdateIsPatched(start, "patternProperties", JObj(entries));
    r := s;
  }
}
