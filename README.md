# jsonschema-definer: a Dafny model of the schema builder

jsonschema-definer is a TypeScript library for building JSON Schema (draft-07)
documents with a fluent API. The entry object `S` creates a schema node of some
kind: string, number, integer, boolean, null, array, list, object, shape, enum,
const, a combinator, or any. Chained builder calls then write keywords into the
node's document `plain`. `valueOf()` returns that document with `$schema` and
`definitions` merged in. `prop`/`shape` nest child documents under `properties`
and collect the names of required children in `required`.

This project models the builder core. It covers the base node, every kind, and
the `S` factory.

- `JsonDoc` (json.dfy): JSON values, schema documents (`map<string, Json>`),
  and the object spread `{ ...a, ...b }`.
- `Base` (base.dfy): the node's fields as a value (`Node`) and as a heap object
  (`Schema`). The in-place setters are methods on `Schema`. `valueOf()` is
  `Node.ValueOf`. The copy-on-write step `copyWith` is `CopyWith`.
- The patch vocabulary (base.dfy): `Patched(before, after, patch)` says that
  exactly the keys of `patch` were written and nothing else changed.
  `FlagSet(before, after, b)` says that only the required flag changed. Most
  one-key setters are stated with these two, so their contracts do not depend
  on their bodies. The others (`definition`, `schema`, `prop`, `shape` and the
  `New` of several kinds) give the new fields explicitly.
- The in-place kinds are object, numeric, combining, enum, const, boolean, null
  and any. Each is a module whose `New` builds a fresh `Schema`. Each builder
  takes the receiver `s`, may modify it, and returns it.
- The copy-on-write kinds are array and string. Their builders are functions
  from `Node` to a new `Node`, and the receiver is never touched. The setters
  they inherit from the base class (`title`, `anyOf`, `definition`,
  `required`, ...) apply in place to the object behind such a node, which
  `Schema.Of(n)` builds; `Factory.StringAnyOf` is one example.
- `Factory` (factory.dfy): the `S` entry points. `shape` is a loop over the
  named children. That loop is proved equal to a fold of `prop` (`PropsFold`).
  Lemmas give the fold's `properties`, its `required` list and its other keys.

The model follows the code wherever the library's API suggests otherwise:

- Although the library reads as an immutable builder, only the array and
  string builders copy. The base setters and the object,
  numeric, combining, enum, const, boolean, null and any kinds change the
  receiver in place and return it. The model writes these as methods that
  modify the receiver.
- `prop` appends a required child's name to `required` even when the name is
  already listed. `ObjectKind.RequiredNotDeduplicated` states this.
- `minimum(n, true)` writes `minimum` and also sets the boolean
  `exclusiveMinimum` (the draft-04 form). It does not replace `minimum` by a
  numeric `exclusiveMinimum`. The same holds for `maximum`. A later inclusive
  bound keeps an earlier flag (`NumericKind.InclusiveBoundKeepsFlag`).
- `shape` takes one argument.
- `not` stores a list of documents, just as `anyOf`, `allOf` and `oneOf` do.
- `S.boolean()` and `S.null()` build base nodes and call `as(...)` on them.
  They do not use the boolean and null kinds.

Two pieces of the base class are not in src/base.ts: the constructor argument
that the array and string kinds pass to `super`, and `copyWith`. `copyWith` is
modelled as its callers use it: a new node whose document is the old one
overwritten by the given keys, or whose flag is replaced. The type name that the
array and string kinds pass to `super` is modelled as their document
`{ type: 'array' }` / `{ type: 'string' }`. The combining, enum and const kinds
declare `plain` without an initialiser. This model takes that declaration to
keep the document the base initialiser set (`{}`).

## Model

| member | source | states |
|---|---|---|
| JsonDoc.Spread | src/base.ts:82 | the object spread `{ ...a, ...b }`: the keys of both, the right-hand value winning on a shared key (also at base.ts:77, 87-112, 133-135 and object.ts:21) |
| JsonDoc.Strings | src/object.ts:49 | a name list stored verbatim: same length, each name as a JSON string at its position |
| Base.JsonType.Name | src/base.ts:5-13 | the type name is one of the seven JSON Schema type names |
| Base.BoolOrSchemaJson | src/object.ts:26-29 | a boolean argument is stored verbatim and a schema argument as its document |
| Base.Node.Definitions | src/base.ts:76-77 | unset definitions read as the empty map, set ones as themselves |
| Base.Node.ValueOf | src/base.ts:131-137 | valueOf keeps every key of the document, adds `$schema` when the URI is non-empty and `definitions` when set, both winning over same-named document keys |
| Base.CopyWith | src/array.ts:65-67 | copy-on-write patch: the patch's keys are written and nothing else changes |
| Base.CopyWithRequired | src/array.ts:98-100 | copy-on-write flag change: only isRequired differs |
| Base.PatchedDetermines | src/base.ts:42-129 | a patch pins down the new node completely |
| Base.PatchedChains | src/base.ts:42-129 | two chained setters act as one patch, the later write winning |
| Base.PatchedShows | src/base.ts:131-137 | every key a setter writes (other than `$schema`/`definitions`) appears in valueOf with that value, and valueOf gains exactly the patch's keys |
| Base.CopyWithComposes | src/array.ts:65-92 | two copy-on-write builders equal one with the merged patch |
| Base.CopyWithIdempotent | src/array.ts:65-92 | applying the same builder twice equals applying it once |
| Base.CopyWithCommutes | src/array.ts:65-92 | builders writing disjoint keys commute |
| Base.Plains | src/base.ts:96-99 | the children's documents, same count and order |
| Base.Schema.constructor | src/base.ts:33-40 | a new node: empty document, required, draft-07 `$schema`, no definitions |
| Base.Schema.Of | src/array.ts:14 | the object behind a copy-on-write node holds exactly that node's fields, so the inherited setters act on it |
| Base.Schema.Id | src/base.ts:42-45 | writes `$id` only, returns the receiver |
| Base.Schema.Ref | src/base.ts:47-50 | writes `$ref` only, returns the receiver |
| Base.Schema.SchemaUri | src/base.ts:52-54 | sets the `$schema` field only and returns nothing |
| Base.Schema.Title | src/base.ts:56-59 | writes `title` only, returns the receiver |
| Base.Schema.Description | src/base.ts:61-64 | writes `description` only, returns the receiver |
| Base.Schema.Examples | src/base.ts:66-69 | writes `examples` as the argument list, in order |
| Base.Schema.Default | src/base.ts:71-74 | writes `default` only |
| Base.Schema.Definition | src/base.ts:76-79 | adds or replaces one definition (the child's document), keeps the others and the document |
| Base.Schema.Raw | src/base.ts:81-84 | merges the fragment into the document, the fragment winning, no key lost |
| Base.Schema.Enum | src/base.ts:86-89 | writes `enum` as the value list |
| Base.Schema.Const | src/base.ts:91-94 | writes `const` |
| Base.Schema.AnyOf | src/base.ts:96-99 | writes `anyOf` as the children's documents in order |
| Base.Schema.AllOf | src/base.ts:101-104 | writes `allOf` as the children's documents in order |
| Base.Schema.OneOf | src/base.ts:106-109 | writes `oneOf` as the children's documents in order |
| Base.Schema.Not | src/base.ts:111-114 | writes `not` as a list of the children's documents |
| Base.Schema.Optional | src/base.ts:116-119 | clears the required flag, nothing else changes; it also stands for the identical in-place overrides in object.ts:60-63, numeric.ts:40-43, combining.ts:30-33, enum.ts:17-20, const.ts:17-20, boolean.ts:10-13, null.ts:10-13, any.ts:9-12 |
| Base.Schema.Required | src/base.ts:121-124 | sets the required flag, nothing else changes; it also stands for the identical overrides in object.ts:65-68, numeric.ts:35-38, combining.ts:35-38, enum.ts:22-25, const.ts:22-25, boolean.ts:15-18, null.ts:15-18, any.ts:14-17 |
| Base.Schema.As | src/base.ts:126-129 | writes `type` as the type name only |
| ObjectKind.New | src/object.ts:17-18 | a fresh node whose document is `{ type: 'object' }` |
| ObjectKind.Properties | src/object.ts:21 | the registered properties; an absent `properties` spreads as no properties |
| ObjectKind.RequiredList | src/object.ts:22 | the `required` list; an absent one reads as the empty list |
| ObjectKind.PropDoc | src/object.ts:20-24 | the child's document registered under its name (replacing one of that name); the name appended to `required` exactly when the child is required; other keys kept |
| ObjectKind.RequiredNotDeduplicated | src/object.ts:22 | registering the same required child twice lists its name twice, while `properties` is unchanged by the second call |
| ObjectKind.Prop | src/object.ts:20-24 | the in-place `prop` leaves the document equal to PropDoc of the old one, the other fields unchanged |
| ObjectKind.AdditionalProperties | src/object.ts:26-29 | writes `additionalProperties` as the boolean or the schema's document |
| ObjectKind.NodeObject | src/base.ts:36-40 | the JSON of a schema object itself has exactly its own fields, with the document under `plain` |
| ObjectKind.PropertyNamesAsWritten | src/object.ts:31-34 | stores the schema object, not its document, under `propertyNames` |
| ObjectKind.PropertyNamesAsWrittenHidesKeywords | src/object.ts:31-34 | the stored object has no `type` or `pattern` key, so it differs from the name schema's document |
| ObjectKind.PropertyNames | src/object.ts:31-34 | stores the name schema's document under `propertyNames` |
| ObjectKind.MinProperties | src/object.ts:36-39 | writes `minProperties` only |
| ObjectKind.MaxProperties | src/object.ts:41-44 | writes `maxProperties` only |
| ObjectKind.DependencyJson | src/object.ts:49 | a schema dependency becomes its document, a name list is stored as strings |
| ObjectKind.DependenciesJson | src/object.ts:46-52 | the stored map has the argument's keys, each value converted |
| ObjectKind.DependenciesOver | src/object.ts:47-50 | the entries converted so far are exactly the visited keys, converted |
| ObjectKind.Dependencies | src/object.ts:46-52 | resets `dependencies` and fills it key by key; afterwards it is the full converted map and nothing else changed |
| ObjectKind.PatternPropertiesJson | src/object.ts:54-58 | the stored map has the argument's patterns, each with its schema's document |
| ObjectKind.PatternPropertiesOver | src/object.ts:55-56 | the entries stored so far are exactly the visited patterns |
| ObjectKind.PatternProperties | src/object.ts:54-58 | resets `patternProperties` and fills it pattern by pattern; afterwards it is the full map and nothing else changed |
| ArrayKind.New | src/array.ts:14-17 | a node whose only keyword is `type: 'array'` |
| ArrayKind.ItemsJson | src/array.ts:31-33 | one schema becomes its document; a list becomes the documents in order |
| ArrayKind.Items | src/array.ts:31-33 | a new node with `items` written and nothing else changed |
| ArrayKind.AdditionalItems | src/array.ts:42-44 | a new node with `additionalItems` as the boolean or the document |
| ArrayKind.Contains | src/array.ts:53-55 | a new node with `contains` as the document |
| ArrayKind.MinItems | src/array.ts:65-67 | a new node with `minItems` written |
| ArrayKind.MaxItems | src/array.ts:77-79 | a new node with `maxItems` written |
| ArrayKind.UniqueItems | src/array.ts:90-92 | a new node with `uniqueItems` written |
| ArrayKind.UniqueItemsDefault | src/array.ts:90-92 | with no argument, `uniqueItems` is `true` |
| ArrayKind.BoundsCommute | src/array.ts:65-79 | setting `minItems` and `maxItems` in either order gives the same node |
| ArrayKind.Optional | src/array.ts:98-100 | a new node differing only in the required flag, now false |
| StringKind.New | src/string.ts:13-16 | a node whose only keyword is `type: 'string'` |
| StringKind.ContentMediaType | src/string.ts:26-28 | a new node with `contentMediaType` written |
| StringKind.ContentEncoding | src/string.ts:39-41 | a new node with `contentEncoding` written |
| StringKind.Format | src/string.ts:50-52 | a new node with `format` written |
| StringKind.MinLength | src/string.ts:62-64 | a new node with `minLength` written |
| StringKind.MaxLength | src/string.ts:74-76 | a new node with `maxLength` written |
| StringKind.Optional | src/string.ts:94-96 | a new node differing only in the required flag, now false |
| StringKind.ToText | src/string.ts:87 | `toString()` of a regular expression: `/`, the source, `/`, the flags |
| StringKind.ReplaceFirst | src/string.ts:87 | string `replace`: the text keeps its length or loses the pattern's length and gains the replacement's; an empty pattern inserts the replacement in front |
| StringKind.PatternTextAsWritten | src/string.ts:87 | the text `substr(1).replace('/' + flags, '')` gives is always exactly as long as the source: the closing `/` and flags always occur, so one occurrence is always removed (though not always that one) |
| StringKind.ReplaceFirstLength | src/string.ts:87 | where the pattern occurs anywhere, string `replace` swaps exactly the pattern's length for the replacement's |
| StringKind.SlashFlagsFollowSource | src/string.ts:87 | after `substr(1)`, `/` followed by the flags occurs right after the source |
| StringKind.ReplaceFirstAt | src/string.ts:87 | string `replace` removes exactly the first occurrence of the pattern text |
| StringKind.ReplaceFirstAbsent | src/string.ts:87 | string `replace` leaves a text without the pattern unchanged |
| StringKind.PatternAsWritten | src/string.ts:86-88 | a new node with `pattern` written as the text the code computes |
| StringKind.PatternAsWrittenWithoutSlash | src/string.ts:86-88 | when the source has no `/`, the computed text is the source |
| StringKind.PatternAsWrittenMangles | src/string.ts:86-88 | for `/a\/b/` the computed text is `a\b/`, not the source `a\/b` |
| StringKind.Pattern | src/string.ts:86-88 | a new node with `pattern` written as the regular expression's source |
| StringKind.PatternAgreesWithoutSlash | src/string.ts:86-88 | on sources without `/` the corrected and the written `pattern` give the same node |
| NumericKind.New | src/numeric.ts:13-16 | a fresh node whose document is `{ type: t }` for number or integer |
| NumericKind.MinimumPatch | src/numeric.ts:18-22 | `minimum` is always written; `exclusiveMinimum: true` is written exactly when exclusive |
| NumericKind.MaximumPatch | src/numeric.ts:24-28 | `maximum` is always written; `exclusiveMaximum: true` is written exactly when exclusive |
| NumericKind.InclusiveBoundKeepsFlag | src/numeric.ts:18-28 | an inclusive bound leaves an earlier exclusive flag in place |
| NumericKind.Minimum | src/numeric.ts:18-22 | patches the receiver with MinimumPatch |
| NumericKind.Maximum | src/numeric.ts:24-28 | patches the receiver with MaximumPatch |
| NumericKind.MultipleOf | src/numeric.ts:30-33 | writes `multipleOf` only |
| CombiningKind.Combinator.Key | src/combining.ts:25 | the key is one of the four combinator keywords |
| CombiningKind.KeysDistinct | src/combining.ts:25-27 | different combinators write different keys |
| CombiningKind.New | src/combining.ts:25-28 | a fresh node with the children's documents under the combinator's key and under no other combinator key |
| EnumKind.New | src/enum.ts:12-15 | a fresh node with the values under `enum` |
| ConstKind.New | src/const.ts:12-15 | a fresh node with the value under `const` |
| BooleanKind.New | src/boolean.ts:7-8 | a fresh node whose document is `{ type: 'boolean' }` |
| NullKind.New | src/null.ts:7-8 | a fresh node whose document is `{ type: 'null' }` |
| AnyKind.New | src/any.ts:6-7 | a fresh node whose document is empty |
| Factory.String | src/index.ts:15-17 | the whole fresh node: document `{ type: 'string' }`, required, draft-07 `$schema`, no definitions |
| Factory.StringAnyOf | src/test.ts:12 | `S.string().anyOf(...)`: the string node with `anyOf` written in place and nothing else changed |
| Factory.Number | src/index.ts:19-21 | the whole fresh node: document `{ type: 'number' }`, required, draft-07 `$schema`, no definitions |
| Factory.Integer | src/index.ts:23-25 | the whole fresh node: document `{ type: 'integer' }`, required, draft-07 `$schema`, no definitions |
| Factory.Boolean | src/index.ts:27-29 | a base node with the document `{ type: 'boolean' }` |
| Factory.Null | src/index.ts:31-33 | a base node with the document `{ type: 'null' }` |
| Factory.Array | src/index.ts:35-37 | the whole fresh node: document `{ type: 'array' }`, required, draft-07 `$schema`, no definitions |
| Factory.List | src/index.ts:39-41 | `array().items(item)`: the document is `{ type: 'array', items: <item's document> }` |
| Factory.Object | src/index.ts:43-45 | the whole fresh node: document `{ type: 'object' }`, required, draft-07 `$schema`, no definitions |
| Factory.PropsFold | src/index.ts:49 | folding `prop` over the children keeps the document well-shaped |
| Factory.RequiredNamesMembers | src/index.ts:49 | a name is in the required-names list exactly when some child of that name is required |
| Factory.FoldRequired | src/index.ts:49 | after the fold, `required` is the old list followed by the required children's names in order |
| Factory.FoldPropertyNames | src/index.ts:49 | after the fold, `properties` has the old names plus every child's name |
| Factory.FoldPropertyValues | src/index.ts:49 | with distinct names, every child's document is under its name |
| Factory.FoldPropertyValuesWhenDistinct | src/index.ts:49 | the same property, stated for any list of children |
| Factory.FoldKeys | src/index.ts:49 | the fold adds only `properties` and `required`, and keeps every other key's value |
| Factory.ShapeDoc | src/index.ts:47-51 | the shape document: keys `type: 'object'`, `additionalProperties: false`, plus `properties` when there are children and `required` when some child is required; properties are the children, required lists the required children in order |
| Factory.PropEach | src/index.ts:49 | the loop leaves the document equal to the fold of `prop` over the children |
| Factory.Shape | src/index.ts:47-51 | a fresh, required draft-07 node whose document is ShapeDoc of the children |
| Factory.Enum | src/index.ts:53-55 | a fresh base node with `enum` written |
| Factory.Const | src/index.ts:57-59 | a fresh base node with `const` written |
| Factory.AnyOf | src/index.ts:61-63 | a fresh base node with `anyOf` written |
| Factory.AllOf | src/index.ts:65-67 | a fresh base node with `allOf` written |
| Factory.OneOf | src/index.ts:69-71 | a fresh base node with `oneOf` written |
| Factory.Not | src/index.ts:73-75 | a fresh base node with `not` written |
| Factory.Any | src/index.ts:77-79 | a fresh base node in the initial state |
| Factory.Raw | src/index.ts:81-83 | a fresh base node whose document is the fragment |
| Factory.Id | src/index.ts:85-87 | a fresh base node with `$id` written |
| Factory.SchemaAsWritten | src/index.ts:89-91 | returns nothing, because the base setter returns nothing |
| Factory.Schema | src/index.ts:89-91 | returns the configured node, whose valueOf is `{ $schema: uri }` for a non-empty URI |
| Factory.Ref | src/index.ts:93-95 | a fresh base node with `$ref` written |
| Factory.Title | src/index.ts:97-99 | a fresh base node with `title` written |
| Factory.Description | src/index.ts:101-103 | a fresh base node with `description` written |
| Factory.Examples | src/index.ts:105-107 | a fresh base node with `examples` written |
| Factory.Default | src/index.ts:109-111 | a fresh base node with `default` written |
| Factory.Definition | src/index.ts:113-115 | a fresh base node whose only definition is the child's document, and valueOf emits it |

## Left out

- `validate`/`ensure` hand the document to an external JSON Schema validator. No validator is modelled, so validity of instances is not stated.
- `partial`, `required(...names)`, `instanceOf`, `ifThen` and `ifThenElse` are not in these source files, so they are not modelled.
- The documentation generator (generatedocs.ts) is not part of this model. Of the sample src/test.ts only the `S.string().anyOf(...)` chain is modelled (`Factory.StringAnyOf`); its logging and type-level lines are not.
- The phantom TypeScript fields `type` and `shape`, and all type-level inference, are not modelled.
- Regular expressions are text only: a `RegExp` is its source and flags, with no matching semantics.
- Numbers are integers (`JNum(int)`). The builder only copies numbers, so fractional and non-finite values are left out.
- Child schema arguments are passed as `Node` values. The stored document is a copy, not a shared reference, so a later in-place change to a child is not reflected in its parent.
- JS object key order (insertion order, integer-like keys first) is not modelled. Maps are unordered. `shape` children are a sequence in iteration order.
- Base.Schema.As: `as()` with no argument (writing `type: undefined`) is not modelled. The argument is always a type name.
- ObjectKind.Prop: requires `properties` to be an object and `required` to be an array when present. These are their declared types. A document where `raw` put other JSON under those keys is not modelled.
- ObjectKind.NodeObject: lists the schema object's own data fields only. It has no methods and no `type`/`shape` fields.
- Factory.FoldPropertyValues: states the children's documents only when their names are distinct. The names of a JS object are always distinct.
- Concurrency, I/O and JSON serialisation are not involved in the builder and are not modelled.

## Findings

| source | as written | input that shows it | evidently intended | confidence | as-written member | corrected member |
|---|---|---|---|---|---|---|
| src/base.ts:52-54 | `schema(uri)` sets the field but returns nothing, so `S.schema(uri)` (src/index.ts:89-91) returns `undefined` | `S.schema('some.com').valueOf()`: the call has no node to act on | return the node, as every other setter does; the library's own test reads `$schema` from the result | high, not executed | Factory.SchemaAsWritten | Factory.Schema |
| src/string.ts:86-88 | the stored text is `toString()` minus its first character, with the first occurrence of `/` + flags removed | `/a\/b/` stores `a\b/` instead of `a\/b` | store the regular expression's source | high, not executed | StringKind.PatternAsWrittenMangles | StringKind.Pattern |
| src/object.ts:31-34 | `propertyNames` stores the schema object itself, not its document | `propertyNames(S.string().pattern(/^some$/))` stores an object whose keys are `plain`, `isRequired`, … and which has no `pattern` | store `nameSchema.plain`, as every other child-taking builder does | medium, not executed | ObjectKind.PropertyNamesAsWrittenHidesKeywords | ObjectKind.PropertyNames |
