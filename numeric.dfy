/**
 * The numeric kind (`number` or `integer`). Its builders write into the
 * receiver's document in place. The exclusive flags are written as booleans
 * next to the bound, the form of draft-04, although the node declares draft-07.
 */
module NumericKind {
  import opened JsonDoc
  import opened Base

  /** `new NumericSchema(t)`: `super()`, then `plain.type = t`. */
  method New(t: JsonType) returns (s: Schema)
    requires t == NumberType || t == IntegerType
    ensures fresh(s)
    ensures Patched(Initial, s.Value(), map["type" := JStr(t.Name())])
  {
    s := new Schema();
    s.plain := s.plain["type" := JStr(t.Name())];
  }

  /** The keys `minimum(num, exclusive)` writes: the bound, and the flag only when exclusive. */
  function MinimumPatch(num: int, exclusive: bool): (p: Doc)
    ensures "minimum" in p && p["minimum"] == JNum(num)
    ensures "exclusiveMinimum" in p <==> exclusive
    ensures exclusive ==> p["exclusiveMinimum"] == JBool(true)
    ensures p.Keys <= {"minimum", "exclusiveMinimum"}
  {
    if exclusive then map["minimum" := JNum(num), "exclusiveMinimum" := JBool(true)]
    else map["minimum" := JNum(num)]
  }

  /** The keys `maximum(num, exclusive)` writes: the bound, and the flag only when exclusive. */
  function MaximumPatch(num: int, exclusive: bool): (p: Doc)
    ensures "maximum" in p && p["maximum"] == JNum(num)
    ensures "exclusiveMaximum" in p <==> exclusive
    ensures exclusive ==> p["exclusiveMaximum"] == JBool(true)
    ensures p.Keys <= {"maximum", "exclusiveMaximum"}
  {
    if exclusive then map["maximum" := JNum(num), "exclusiveMaximum" := JBool(true)]
    else map["maximum" := JNum(num)]
  }

  /**
   * A bound set without `exclusive` leaves an earlier `exclusiveMinimum` /
   * `exclusiveMaximum` in place: nothing ever clears the flag.
   */
  lemma InclusiveBoundKeepsFlag(n: Node, num: int)
    ensures "exclusiveMinimum" in n.plain ==>
              CopyWith(n, MinimumPatch(num, false)).plain["exclusiveMinimum"] == n.plain["exclusiveMinimum"]
    ensures "exclusiveMaximum" in n.plain ==>
              CopyWith(n, MaximumPatch(num, false)).plain["exclusiveMaximum"] == n.plain["exclusiveMaximum"]
  {
  }

  method Minimum(s: Schema, num: int, exclusive: bool := false) returns (r: Schema)
    modifies s
    ensures r == s
    ensures Patched(old(s.Value()), s.Value(), MinimumPatch(num, exclusive))
  {
    s.plain := s.plain["minimum" := JNum(num)];
    if exclusive {
      s.plain := s.plain["exclusiveMinimum" := JBool(true)];
    }
    r := s;
  }

  method Maximum(s: Schema, num: int, exclusive: bool := false) returns (r: Schema)
    modifies s
    ensures r == s
    ensures Patched(old(s.Value()), s.Value(), MaximumPatch(num, exclusive))
  {
    s.plain := s.plain["maximum" := JNum(num)];
    if exclusive {
      s.plain := s.plain["exclusiveMaximum" := JBool(true)];
    }
    r := s;
  }

  method MultipleOf(s: Schema, num: int) returns (r: Schema)
    modifies s
    ensures r == s
    ensures Patched(old(s.Value()), s.Value(), map["multipleOf" := JNum(num)])
  {
    s.plain := s.plain["multipleOf" := JNum(num)];
    r := s;
  }
}
