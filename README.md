# Typed JSON cast/uncast for the timeline feeds

The timeline back end reads three feeds (events, summaries and the
"sources for web" story list). Each feed is checked by a small generated
converter. `cast(val, typ)` walks a parsed JSON value against a declarative
type descriptor and returns a fresh copy with every field renamed from its
JSON name to its JavaScript name. `uncast` walks the other way. Any value
that does not fit the descriptor makes the walk throw an
`Error("Invalid value ...")` naming the key, the enclosing type and the
expected shape.

The engine (`invalidValue`, `prettyTypeName`, `jsonToJSProps`,
`jsToJSONProps`, `transform` and its inner functions, `cast`/`uncast` and the
descriptor constructors `l a u o m r`) is byte-identical in the three files.
It is modelled once. Each file's `typeMap` table becomes a constant in its
own module.

Modules:

- `JsonValues` (values.dfy): the values walked.
  - The JSON values, plus `undefined` and `Date` instances.
  - Objects are ordered member lists (insertion order).
  - `ValueAt` reads `hasOwnProperty(val, k) ? val[k] : undefined`.
  - `Put` is `result[k] = x`.
- `Descriptors` (descriptors.dfy): the descriptor tree `Typ` and the table type.
  - The tree covers `"any"`, `null`, `false`, `r(name)`, enum arrays, `u(...)`, `a(...)`, `o(...)`, `Date` and the primitive markers.
- `Messages` (messages.dfy): the failure `invalidValue` reports and its text.
- `PropMaps` (propmaps.dfy): the json→js and js→json property maps.
  - `ObjectDescriptor` is the descriptor object whose `jsonToJS` / `jsToJSON` memo fields are filled on first use.
- `Transformer` (transform.dfy): `transform` as a total function.
  - It returns `Ok(value)` or `Fail(InvalidValue(...))`.
  - `CastValue` / `UncastValue` are `cast` / `uncast`.
- `TransformSteps` (transform_steps.dfy): the loops of the source as methods, each proved equal to the function.
  - The reference-resolving `while`, the union `for`, and the object's two `forEach` passes over a memoizing descriptor.
- `TransformRules` (transform_rules.dfy): one lemma per branch of `transform`.
- `Acceptance` (acceptance.dfy): an independent declarative reading of which values a descriptor accepts, and the proof that the engine succeeds exactly on them.
- `Directions` (directions.dfy): when every field's json and js names coincide, `cast` and `uncast` are the same function.
- `RoundTrip` (round_trip.dfy): the round-trip law. A value that `cast` produced is a fixed point of both directions when names agree, unions are stable and dates reparse as themselves.
- `EventSchema`, `SummarySchema`, `SourcesForWebSchema`: the three tables.
  - Each comes with its validity, the cast = uncast consequence, the round trip, and the facts the feed relies on.

## Model

| member | source | states |
|---|---|---|
| JsonValues.ValueAt | functions/public/event/event.js:106 | a missing key reads as `undefined`; a present key reads the value of a member carrying that key |
| JsonValues.Put | functions/public/event/event.js:107 | assigning an existing key replaces only that key's member with the new value, in place, and every other member is unchanged; a new key is appended at the end |
| JsonValues.PutThenRead | functions/public/event/event.js:107 | after `result[key] = v` the key is present and reads `v` |
| JsonValues.PutElsewhere | functions/public/event/event.js:107 | `result[key] = v` leaves every other key's presence and value as they were |
| JsonValues.TypeOf | functions/public/event/event.js:61 | `typeof`: "undefined", "boolean", "number", "string", and "object" for null, arrays, objects and Dates; its contract is carried by TransformRules.PrimitiveRule and TransformRules.NonObjectRejected |
| JsonValues.Own | functions/public/event/event.js:109 | the own property names of a value that passed the object check: an object's members in insertion order, none for a Date; its contract is carried by TransformRules.ExtrasFromAllDeclared, TransformRules.ObjectPassThrough and Acceptance.ExtrasFromOkIff |
| Transformer.Resolve | functions/public/event/event.js:123-127 | a reference to a name in the table resolves to exactly that entry (an object or an enum), a name the table lacks resolves to the `undefined` marker (names inherited from `Object.prototype` excepted, see Left out), and the name is recorded; any other descriptor resolves to itself with no ref name |
| Transformer.Transform | functions/public/event/event.js:59-138 | the whole walk; it succeeds exactly when Acceptance.Accepts holds (Acceptance.TransformOkIffAccepts), and each branch is stated by the TransformRules lemmas (MarkerRules, PrimitiveRule, EnumRule, DateRule, ArrayRule, UnionRule, RefRule) |
| Transformer.TransformPrimitive | functions/public/event/event.js:60-63 | stated by TransformRules.PrimitiveRule: accepts exactly the values with the marker's `typeof`, returns them unchanged, and fails naming the marker |
| Transformer.TransformEnum | functions/public/event/event.js:77-80 | stated by TransformRules.EnumRule and Messages.EnumNameListsEveryCase: accepts exactly the listed strings, unchanged, and fails listing every case |
| Transformer.TransformDate | functions/public/event/event.js:88-97 | stated by TransformRules.DateRule: null stays null, parseable input becomes a Date, unparseable input fails with "Date" |
| Transformer.UnionFrom | functions/public/event/event.js:68-73 | stated by TransformRules.UnionFromFirstMatch, TransformRules.UnionFirstSuccessWins and Acceptance.UnionFromOkIff: the first member that succeeds decides, and one exists iff some member accepts |
| Transformer.ElemsFrom | functions/public/event/event.js:85 | stated by TransformRules.ElemsFromResults and Acceptance.ElemsFromOkIff: the per-element results in order, succeeding iff every element is accepted |
| Transformer.TransformObject | functions/public/event/event.js:99-115 | stated by TransformRules.NonObjectRejected, ObjectOutput, ObjectOutputOf, ObjectFirstFieldFailure, ObjectUndeclaredKeyFailure, ObjectPassThrough and Acceptance.ObjectOkIff |
| Transformer.FieldsFrom | functions/public/event/event.js:103-108 | stated by TransformRules.FieldsFromAllOk, FieldsFromFirstFailure, FieldsFromOk and Acceptance.FieldsFromOkIff |
| Transformer.ExtrasFrom | functions/public/event/event.js:109-113 | stated by TransformRules.ExtrasFromAllDeclared, ExtrasFromFirstFailure, ExtrasFromPassThrough and Acceptance.ExtrasFromOkIff |
| Transformer.CastValue | functions/public/event/event.js:140-142 | `transform` with the json→js maps; Directions.CastEqualsUncast and RoundTrip.CastRoundTrip state what it promises |
| Transformer.UncastValue | functions/public/event/event.js:144-146 | `transform` with the js→json maps; Directions.CastEqualsUncast and RoundTrip.CastRoundTrip state what it promises |
| Messages.PrettyTypeNameAsWritten | functions/public/event/event.js:27-39 | printing a descriptor throws exactly when it dereferences the null marker; otherwise it yields the corrected name |
| Messages.MessageAsWritten | functions/public/event/event.js:20-25 | the thrown text is missing (a TypeError comes first) exactly when the expected descriptor reads the null marker; otherwise it is the full message |
| Messages.Message | functions/public/event/event.js:20-25 | the text `invalidValue` throws; its layout is stated by Messages.MessageLayout |
| Messages.PrettyTypeName | functions/public/event/event.js:27-39 | `prettyTypeName` with the null marker named; stated by Messages.OptionalName, Messages.EnumNameListsEveryCase and Messages.NullMarkerNamed, and tied to the code as written by Messages.PrettyTypeNameAsWritten |
| Messages.DescriptorName | functions/public/event/event.js:34-38 | the `literal` or `typeof` of a single descriptor; stated by Messages.NullMarkerNamed and Messages.PrettyTypeNameAsWritten |
| Messages.MessageLayout | functions/public/event/event.js:20-25 | the message opens with "Invalid value" and ends with ` but got <value>`; in between comes ` for key "k"` when there is a key, then ` on Parent` when there is a parent, then `. Expected <name>`; all four key/parent layouts are stated |
| Messages.OptionalName | functions/public/event/event.js:28-30 | a two-member union whose first member is `undefined` is printed "an optional X" |
| Messages.EnumNameListsEveryCase | functions/public/event/event.js:77-80 | an enum failure's expected text contains every enum case |
| Messages.NullMarkerMessageThrows | functions/public/event/event.js:27-39 | a failure against `null`, `u(null, "")` or `u(Date, r("BiasEnum"), null)` cannot be printed as written |
| Messages.NullMarkerNamed | functions/public/event/event.js:27-39 | the corrected printer names `null` "null" and `u(null, "")` "one of [null, string]" |
| PropMaps.Assign | functions/public/event/event.js:44 | `map[name] = entry` appends the entry when the name is new, and otherwise replaces the entry under that name in place |
| PropMaps.BuildPropMap | functions/public/event/event.js:41-57 | the map `forEach` builds in either direction; stated by PropMaps.BuildPropMapNames, BuildPropMapEntries, BuildPropMapLastWins, BuildPropMapOfDistinct, BuildPropMapPrefix and MirrorImage |
| PropMaps.AssignNames | functions/public/event/event.js:44 | after the assignment exactly the old names plus the assigned one are present, and distinct names stay distinct |
| PropMaps.AssignKeeps | functions/public/event/event.js:44 | the assigned entry is in the map and every entry under another name is kept |
| PropMaps.AssignElsewhere | functions/public/event/event.js:44 | the map never shrinks, and entries under other names keep their position |
| PropMaps.BuildPropMapPrefix | functions/public/event/event.js:41-48 | when the first n fields have distinct names that no later field reuses, the map starts with those n bindings in declaration order |
| PropMaps.BuildPropMapNames | functions/public/event/event.js:41-48 | the map's names are distinct and are exactly the source-side names of the declared fields |
| PropMaps.BuildPropMapEntries | functions/public/event/event.js:41-48 | every map entry is the binding of some declared field |
| PropMaps.BuildPropMapLastWins | functions/public/event/event.js:44 | when a name is declared twice, the later declaration is the one kept |
| PropMaps.BuildPropMapOfDistinct | functions/public/event/event.js:41-48 | with distinct names, the map is the declared fields in order |
| PropMaps.MirrorImage | functions/public/event/event.js:50-57 | the js→json map of the props equals the json→js map of the props with json and js swapped |
| PropMaps.AgreeingNamesSameMap | functions/public/event/event.js:41-57 | when every field's json and js names coincide, both maps are the same |
| PropMaps.BuildMap | functions/public/event/event.js:43-44 | the `forEach` building the map yields the map of the specification |
| PropMaps.ObjectDescriptor.constructor | functions/public/event/event.js:160-162 | `o(props, additional)` starts with no memoized maps |
| PropMaps.ObjectDescriptor.JsonToJSProps | functions/public/event/event.js:41-48 | returns the json→js map, memoizes it, and a memo once set is never replaced; the other memo is untouched |
| PropMaps.ObjectDescriptor.JsToJSONProps | functions/public/event/event.js:50-57 | returns the js→json map, memoizes it, and a memo once set is never replaced; the other memo is untouched |
| PropMaps.ObjectDescriptor.GetProps | functions/public/event/event.js:140-146 | the `getProps` argument chosen by cast/uncast returns the map of that direction and memoizes only that direction |
| PropMaps.MemoIsIdempotent | functions/public/event/event.js:41-57 | asking twice returns the same map, the one built from the declared fields; afterwards that direction's memo holds it and the other memo is untouched |
| TransformRules.MarkerRules | functions/public/event/event.js:117-122 | `"any"` returns its input; `null` accepts only null and fails naming `null`; `false` always fails naming `false` |
| TransformRules.PrimitiveRule | functions/public/event/event.js:60-63 | a primitive marker accepts exactly the values of the same `typeof`, returns them unchanged, and fails naming the marker |
| TransformRules.EnumRule | functions/public/event/event.js:77-80 | an enum accepts exactly the strings among its cases, returns them unchanged, and fails listing the cases |
| TransformRules.DateRule | functions/public/event/event.js:88-97 | `Date` turns null into null and a parseable non-number into a Date; an unparseable value fails with "Date"; a number fails with "function" |
| TransformRules.ArrayRule | functions/public/event/event.js:82-86 | a non-array fails with "array"; a success yields as many elements as the input, each the transform of the element at the same position; a failure is the first failing element's failure |
| TransformRules.ElemsFromResults | functions/public/event/event.js:85 | the element walk yields the per-element results in order, or the failure of one of the elements |
| TransformRules.UnionRule | functions/public/event/event.js:65-75 | a union fails iff every member fails, with the member list as expected; otherwise it yields the first member that succeeds |
| TransformRules.UnionFromFirstMatch | functions/public/event/event.js:68-73 | the member loop returns the first member result that succeeds |
| TransformRules.UnionFirstSuccessWins | functions/public/event/event.js:68-73 | a member that succeeds after only failing members decides the union's result |
| TransformRules.OptionalAcceptsAbsent | functions/public/event/event.js:65-75 | `u(undefined, X)` accepts a missing field and returns `undefined` |
| TransformRules.RefRule | functions/public/event/event.js:123-133 | a reference to an object walks that object with the name as parent; a reference to an enum is that enum; a name missing from the table leaves the `undefined` marker, which accepts only `undefined` (names inherited from `Object.prototype` excepted, see Left out) |
| TransformRules.NonObjectRejected | functions/public/event/event.js:100-101 | null, primitives and arrays fail against an object with the ref name, or "object" without one |
| TransformRules.FieldsFromFirstFailure | functions/public/event/event.js:104-108 | the declared-field pass stops at the first failing field and reports that failure |
| TransformRules.FieldsFromAllOk | functions/public/event/event.js:103-108 | when every remaining declared field succeeds and target names are distinct and unused, the pass appends one member per field, in order, under its target name, holding the field's result |
| TransformRules.CastMapOfDistinct | functions/public/event/event.js:41-48 | for `cast` over distinct json names and distinct js names, the map is the declared fields in order and its target names are distinct |
| TransformRules.ExtrasFromAllDeclared | functions/public/event/event.js:109-113 | when every own key is declared, the extras pass leaves the result untouched |
| TransformRules.ExtrasFromFirstFailure | functions/public/event/event.js:109-113 | the extras pass reports the first undeclared key that `additional` rejects; earlier undeclared keys that `additional` accepts are written into the result and do not change that outcome |
| TransformRules.ExtrasFromPassThrough | functions/public/event/event.js:109-113 | with `additional` = "any", when the own keys are distinct and no undeclared key is already a key of the result being built, the extras pass appends every undeclared own member unchanged, in order; otherwise `result[key] = ...` would overwrite an existing member in place |
| TransformRules.UndeclaredFromHolds | functions/public/event/event.js:109-113 | every undeclared own member is among those the extras pass appends |
| TransformRules.ObjectFirstFieldFailure | functions/public/event/event.js:104-108 | an object fails with the first failing declared field's error, read under its source-side key with the ref name as parent |
| TransformRules.ObjectUndeclaredKeyFailure | functions/public/event/event.js:109-113 | with `additional` = false and all declared fields fine, the first undeclared key fails naming `false`, the key and the ref |
| TransformRules.FieldsFromOk | functions/public/event/event.js:103-108 | the declared-field pass succeeds whenever every remaining field's own walk succeeds |
| TransformRules.ObjectOutput | functions/public/event/event.js:103-114 | when every field succeeds, every own key is declared and target names are distinct, the walk succeeds with a fresh object whose i-th member is the i-th field under its target name holding its transformed value |
| TransformRules.ObjectOutputOf | functions/public/event/event.js:103-114 | with the fields' results given, the walk yields exactly the object of those results under their target names |
| TransformRules.CastOutputKeys | functions/public/event/event.js:103-108 | for `cast` over distinct names, with every field succeeding and every own key declared, the output keys are the fields' js names in declaration order |
| TransformRules.ObjectPassThrough | functions/public/event/event.js:99-115 | with `additional` = "any", when every declared field succeeds, the own keys are distinct and no undeclared key equals a declared field's target name, the output is the declared fields under their target names followed by every undeclared own member unchanged; every such member appears in the output. Without that last condition (possible in `cast` when a json name differs from its js name) an undeclared key overwrites the field's member in place |
| Acceptance.TransformOkIffAccepts | functions/public/event/event.js:59-138 | the engine succeeds exactly on the values the declarative reading accepts |
| Acceptance.Accepts | functions/public/event/event.js:59-138 | the independent reading; Acceptance.TransformOkIffAccepts proves the engine succeeds exactly on it |
| Acceptance.UnionFromOkIff | functions/public/event/event.js:65-75 | the union loop finds a member iff some remaining member accepts the value |
| Acceptance.ElemsFromOkIff | functions/public/event/event.js:82-86 | the element walk succeeds iff every remaining element is accepted |
| Acceptance.ObjectOkIff | functions/public/event/event.js:99-115 | an object walk succeeds iff the value passes the object check, every declared field is acceptable, and every undeclared key is acceptable to `additional` |
| Acceptance.FieldsFromOkIff | functions/public/event/event.js:104-108 | the declared-field pass succeeds iff every remaining field is acceptable |
| Acceptance.ExtrasFromOkIff | functions/public/event/event.js:109-113 | the extras pass succeeds iff every remaining undeclared key is acceptable |
| Acceptance.UndeclaredKeyRejected | functions/public/event/event.js:109-113 | with `additional` = false, any undeclared own key makes the object fail |
| Acceptance.ObjectOkParts | functions/public/event/event.js:99-115 | a successful object walk met an object, read every field successfully, and with `additional` = false met only declared keys |
| Directions.TransformBothWays | functions/public/event/event.js:59-138 | when every field's json and js names coincide, the walk gives the same outcome in both directions |
| Directions.ObjectBothWays | functions/public/event/event.js:99-115 | the same holds for one object walk |
| Directions.CastEqualsUncast | functions/public/event/event.js:140-146 | on such tables and descriptors `cast` and `uncast` agree on every value |
| RoundTrip.AcceptedSound | functions/public/event/event.js:59-138 | a value whose shape a descriptor does not accept is rejected |
| RoundTrip.ProducedSound | functions/public/event/event.js:59-138 | a successful walk yields one of the shapes the descriptor produces (a Date descriptor yields null or a Date) |
| RoundTrip.KeepsSound | functions/public/event/event.js:59-138 | `"any"`, `null`, `false`, enums, primitive markers and enum references return their input when they succeed |
| RoundTrip.Settled | functions/public/event/event.js:59-138 | under agreeing names, stable unions and a date parser that reads a Date back as itself, walking a walk's output again yields the same output |
| RoundTrip.UnionSettled | functions/public/event/event.js:65-75 | the same for a union: the member that produced the output is the first that accepts it again |
| RoundTrip.ArraySettled | functions/public/event/event.js:82-86 | the same for an array, element by element |
| RoundTrip.ObjectSettled | functions/public/event/event.js:99-115 | the same for an object: declared fields read back under their own names, undeclared members are fixed points of `additional` |
| RoundTrip.CastRoundTrip | functions/public/event/event.js:140-146 | what `cast` produced, `uncast` returns unchanged and `cast` reproduces |
| RoundTrip.UnstableUnionBreaksRoundTrip | functions/public/event/event.js:65-75 | without the union condition the law fails: `u(o([], "any"), Date)` casts text to a Date and that Date to `{}` |
| TransformSteps.ResolveRefs | functions/public/event/event.js:123-127 | the `while` loop over `typ.ref` ends on the resolved descriptor and the last ref name, as `Resolve` states |
| TransformSteps.TransformUnion | functions/public/event/event.js:65-75 | the `for` loop with `try`/`catch` gives the union's outcome |
| TransformSteps.DeclaredPass | functions/public/event/event.js:103-108 | the `forEach` over the declared fields writes each field's result under its target name, or stops with the first failure, as the declared-field pass states |
| TransformSteps.ExtrasPass | functions/public/event/event.js:109-113 | the `forEach` over the own keys transforms each undeclared key with `additional`, or stops with the first failure, as the extras pass states |
| TransformSteps.TransformObjectWith | functions/public/event/event.js:99-132 | `getProps(typ)` runs before the object check, so that direction's memo is filled with its map even when the value is rejected and the other memo is untouched; the two `forEach` passes, writing into a fresh result, give the object's outcome |
| EventSchema.TableIsValid | functions/public/event/event.js:172-444 | every entry of the event table is an object or an enum |
| EventSchema.TableNamesAgree | functions/public/event/event.js:172-444 | every field of the event table has equal json and js names |
| EventSchema.CastEqualsUncastOnTable | functions/public/event/event.js:172-444 | for every entry of the event table, `cast` and `uncast` agree |
| EventSchema.TableIsStable | functions/public/event/event.js:172-444 | no union of the event table lets an earlier member take what a later member produced |
| EventSchema.EventRoundTrip | functions/public/event/event.js:172-444 | for every name of the event table, what `cast` produced comes back unchanged from `uncast` and `cast` |
| EventSchema.SpecialFeedAcceptsOnlyEmpty | functions/public/event/event.js:396-397 | `SpecialFeed` accepts exactly an object with no own keys (or a Date instance) and yields `{}` |
| SummarySchema.TableIsValid | functions/public/event/summary.js:172-260 | every entry of the summary table is an object or an enum |
| SummarySchema.TableNamesAgree | functions/public/event/summary.js:172-260 | every field of the summary table has equal json and js names |
| SummarySchema.CastEqualsUncastOnTable | functions/public/event/summary.js:172-260 | for every entry of the summary table, `cast` and `uncast` agree |
| SummarySchema.TableIsStable | functions/public/event/summary.js:172-260 | no union of the summary table lets an earlier member take what a later member produced |
| SummarySchema.SummaryRoundTrip | functions/public/event/summary.js:172-260 | for every name of the summary table, what `cast` produced comes back unchanged from `uncast` and `cast` |
| SummarySchema.TypeAcceptsExactly | functions/public/event/summary.js:255-259 | `Type` accepts exactly "place", "person" and "topic", unchanged |
| SummarySchema.SummaryMap | functions/public/event/summary.js:173-175 | the root's property map is the single `summary` binding |
| SummarySchema.SummaryRootRejectsOtherKeys | functions/public/event/summary.js:173-175 | a root object holding any key other than `summary` is rejected |
| SummarySchema.SummaryRootInput | functions/public/event/summary.js:173-175 | an accepted root is an object whose only key is `summary`, whose `summary` is accepted as `SummaryClass` |
| SummarySchema.SummaryRootOutput | functions/public/event/summary.js:173-175 | an accepted root yields exactly `{ summary: <cast of its summary> }` |
| SummarySchema.MediaMapStart | functions/public/event/summary.js:207-209 | `Media`'s map starts with `url` (string) and then `youtubeEmbed` (the null marker) |
| SummarySchema.MediaEmbedFailureThrows | functions/public/event/summary.js:207-209 | a `Media` with a string url and a non-null `youtubeEmbed` fails on `youtubeEmbed` against `null`, and that failure's message cannot be printed as written |
| SourcesForWebSchema.TableIsValid | functions/v06/story/sourcesForWeb.js:172-283 | every entry of the sources table is an object or an enum |
| SourcesForWebSchema.TableNamesAgree | functions/v06/story/sourcesForWeb.js:172-283 | every field of the sources table has equal json and js names |
| SourcesForWebSchema.CastEqualsUncastOnTable | functions/v06/story/sourcesForWeb.js:172-283 | for every entry of the sources table, `cast` and `uncast` agree |
| SourcesForWebSchema.TableIsStable | functions/v06/story/sourcesForWeb.js:172-283 | no union of the sources table lets an earlier member take what a later member produced |
| SourcesForWebSchema.SourcesForWebRoundTrip | functions/v06/story/sourcesForWeb.js:172-283 | for every name of the sources table, what `cast` produced comes back unchanged from `uncast` and `cast` |
| SourcesForWebSchema.LangAndPaywall | functions/v06/story/sourcesForWeb.js:248-257 | `Lang` accepts exactly "en", "he", "ar" and `Paywall` exactly "no", "sometimes", "yes" |
| SourcesForWebSchema.NullOrString | functions/v06/story/sourcesForWeb.js:181 | `u(null, "")` accepts exactly null and strings, unchanged, and its failure message cannot be printed as written |
| SourcesForWebSchema.LabelData | functions/v06/story/sourcesForWeb.js:196-199 | `labelData` turns null into null, parseable text into a Date, unparseable text into itself iff it is a `BiasEnum` case; a number fails unprintably |

## Left out

- `JSON.parse` / `JSON.stringify` and the wrappers `toEvent`, `eventToJson` and their summary and sources counterparts. The model starts from a parsed value. The `JSON.stringify(val)` in the message is an opaque `shown` string.
- `new Date(val)` is a parameter of the context (`parseDate`), because date-string parsing is host behaviour. A Date instance is a value carrying a time and no own properties.
- Numbers are abstract reals. The engine only asks for their `typeof`, so the `0` and `3.14` markers are the same number marker here.
- The thrown `Error` object, its stack and the identity of the TypeError are not modelled. A failure is a `Fail` value, and a TypeError in the printer is `None`.
- JavaScript property order puts integer-like keys first, and `__proto__` is special. Objects here are plain insertion-ordered member lists.
- Tables are restricted to object and enum entries (`ValidTypeMap`), which all three tables satisfy. A table entry that is itself a reference or a union is not modelled.
- Transformer.Transform: an unresolved `r(name)` leaves the `undefined` marker, which accepts only `undefined`. The code does this for every name that is neither in the table nor a property of `Object.prototype`. The table is a plain object literal (event.js:172), so `typeMap[name]` also finds inherited members. `r("toString")` or `r("constructor")` ends on a function, which rejects every value naming "function" (event.js:61-62, 137). `r("__proto__")` ends on `Object.prototype`, which rejects every value naming "object" (event.js:129-133). The model treats such names as missing and accepts `undefined`. None of the three tables refers to such a name.
- The `m(additional)` constructor is not used by any table and is not modelled. A descriptor without props, union members or item type (line 133) cannot be built by the generated tables.
- The memo fields live on `ObjectDescriptor`. The pure `Transform` recomputes the map instead of reading a memo; `TransformSteps.TransformObjectWith` shows the two agree.
- RoundTrip.CastRoundTrip: the law is about the values `cast` and `uncast` return, not about text. The `JSON.stringify` of `eventToJson` and the `JSON.parse` of `toEvent` are outside the model, so "parse, cast, uncast, stringify gives the same text" is not stated.
- RoundTrip.CastRoundTrip: it assumes that `new Date(d)` on a Date instance `d` is the same instant (`ReparsesDates`), which is host behaviour. It assumes that every field's json and js names agree (true of all three tables) and that unions are stable. RoundTrip.UnstableUnionBreaksRoundTrip shows the law fails without the union condition; all three tables meet it (`TableIsStable`).
- The route handlers (`functions/timeline.js`, `functions/api.js`, `src/pages/api/timeline.js`, `src/pages/api/old.js`, `script.js`, `functions/newsgenerator.js`) do network and file I/O and are not part of this model.

## Findings

| source | as written | input that shows it | evidently intended | confidence | as-written member | corrected member |
|---|---|---|---|---|---|---|
| functions/public/event/event.js:34 | `prettyTypeName` reads `typ.literal` on `typ === null` (`typeof null` is "object"), throwing a TypeError, so any failure whose expected shape is the `null` marker or a union listing it throws a TypeError instead of "Invalid value ..." | `cast({url: "u", youtubeEmbed: "x", ...}, r("Media"))` in summary.js (line 209), or `u(null, "")` given a number in sourcesForWeb.js (line 181) | the usual message is thrown; the model prints the null marker as "null", one of two reasonable corrections: the minimal guard `typ !== null &&` would fall through to `typeof null` and print "object" | not executed | Messages.NullMarkerMessageThrows | Messages.NullMarkerNamed |
