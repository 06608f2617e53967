# Style filter evaluator of mapbox-gl-native, in Dafny

This project models the style filter evaluator of mapbox-gl-native. The
evaluator is a pure, recursive predicate. It decides whether a map feature
matches a style layer's filter. A feature is read through two accessors:

- `getValue(key)` returns the property stored under a key, or nothing;
- `getType()` returns the geometry type.

The evaluator's behaviour is pinned down by the filter unit tests in
`test/style/filter.cpp`. That file defines:

- a stub feature: a property multimap plus a geometry type;
- an `evaluate(filter, properties, type = Unknown)` helper;
- one test per operator, each with exact expected truth values.

The model is functional, as the source is: datatypes, recursive functions
and lemmas.

- `wrappers.dfy`: `Option`, the result of a lookup.
- `values.dfy` (module `Values`): the property `Value`, with variants
  `Bool`, `Int` (64-bit signed), `UInt` (64-bit unsigned), `Double` and
  `String`. It also holds `Equal`, the equality filters use. Numbers are
  equal when their values are equal, whatever their encodings. A string is
  only equal to a string, and a boolean only to a boolean. `Equal` is
  specified against an independent canonical form, `Canonical`.
- `feature.dfy` (module `Features`): `FeatureType`, the multimap as a
  sequence of entries, `StubFeature`, and `Find`/`GetValue`. These model
  `std::multimap::find` and `StubFeature::getValue`. `getType` is the
  `kind` field of `StubFeature`.
- `filter.dfy` (module `Filters`): the `Filter` tree, with `Equals`, `In`,
  `Any`, `All`, `None`, `Has` and `NotHas`. It also holds `Lookup` (the
  reserved key `$type` reads the geometry type instead of a property) and
  `Evaluate`. `Evaluate` is structural recursion over the tree. As a
  choice of this model, `AnyOf`, `AllOf` and `NoneOf` scan the children in
  order and stop at the first child that decides the result. The laws
  below make the result independent of that scan order. `EvaluateProperties` is the tests'
  `evaluate` helper. Its geometry type defaults to `Unknown`.
- `filter_laws.dfy` (module `FilterLaws`): what each operator means,
  proved for all filters and features.
- `filter_tests.dfy` (module `FilterTests`): every assertion of the unit
  tests, as lemmas.

Two details of the tests are modelled as they are written:

- The argument `{{}}` is not an empty multimap. It is a one-entry multimap
  whose key is the empty string and whose value is value-initialised. The
  test lemmas hold for every value of that entry (`Blank`).
- The filter parser decides the encoding of a numeric literal such as `0`.
  The test lemmas hold for any numeric encoding of the literal
  (`IsLiteral`).

## Model

| member | source | states |
|---|---|---|
| `Features.Find` | test/style/filter.cpp:25-28 | The multimap lookup is absent exactly when no entry has the key. Otherwise it returns a value stored under that key. |
| `Features.GetValue` | test/style/filter.cpp:24-29 | `getValue(key)` is absent iff no property is stored under the key. Otherwise it returns a value stored under the key. |
| `Filters.Lookup` | test/style/filter.cpp:24-33 | The key `$type` yields the feature's geometry type, by name. Every other key yields the property lookup: absent iff the key is missing, else a value stored under it. |
| `Filters.Evaluate` | test/style/filter.cpp:50-54 | Whether a feature matches a filter. It is total, by structural recursion over the filter tree. It has no contract of its own; its meaning for each operator is stated by the `FilterLaws.*Iff` rows below. |
| `Filters.EvaluateProperties` | test/style/filter.cpp:50-54 | The tests' `evaluate` helper: it builds a stub feature from the properties and the geometry type, which defaults to `Unknown`, and evaluates the filter on it. It has no contract of its own; its meaning comes from the `FilterLaws.*Iff` rows. |
| `Values.Equal` | test/style/filter.cpp:62-73 | Two values are equal iff their canonical forms agree. All numeric encodings collapse to one number; booleans and strings stay distinct kinds. |
| `Values.EqualIsEquivalence` | test/style/filter.cpp:62-73 | Value equality is reflexive, symmetric and transitive. |
| `Values.NumericEqualityIgnoresEncoding` | test/style/filter.cpp:62-69 | Two numbers are equal iff their mathematical values are equal, whatever their encodings. |
| `Values.SameNumberInEveryEncoding` | test/style/filter.cpp:64-66 | The same integer stored as int64, uint64 or double is one value. |
| `Values.NumberNeverEqualsStringOrBool` | test/style/filter.cpp:70-72 | A number never equals a string or a boolean, in either order. |
| `FilterLaws.ContainsIff` | test/style/filter.cpp:82-87 | The scan over the literals of `in` succeeds iff some literal equals the value. |
| `FilterLaws.AnyIff` | test/style/filter.cpp:89-97 | `any` is true iff at least one child is true, so it is false on the empty list. |
| `FilterLaws.AllIff` | test/style/filter.cpp:99-107 | `all` is true iff every child is true, so it is true on the empty list. |
| `FilterLaws.NoneIff` | test/style/filter.cpp:109-117 | `none` is true iff no child is true, so it is true on the empty list. |
| `FilterLaws.NoneIsNotAny` | test/style/filter.cpp:89-117 | `none` is exactly the negation of `any` over the same children. |
| `FilterLaws.NotHasIsNotHas` | test/style/filter.cpp:119-139 | `!has key` is exactly the negation of `has key`. |
| `FilterLaws.HasIff` | test/style/filter.cpp:119-128 | `has key` is true iff some property is stored under the key. `has $type` is always true. |
| `FilterLaws.HasWhateverTheValue` | test/style/filter.cpp:119-125 | Any value stored under the key, including `false` and `0`, makes `has` true and `!has` false. |
| `FilterLaws.EqualsIff` | test/style/filter.cpp:56-73 | `==` is true iff the key has a value whose canonical form is the literal's. |
| `FilterLaws.InIff` | test/style/filter.cpp:82-87 | `in` is true iff the key has a value equal to at least one listed literal. |
| `FilterLaws.InOneIsEquals` | test/style/filter.cpp:76-87 | `in` with a single literal agrees with `==` on that literal. |
| `FilterLaws.AbsentNeverMatches` | test/style/filter.cpp:73 | When the property is absent, `==` and `in` are false whatever the literals. |
| `FilterLaws.NumericLiteralMatchesByValue` | test/style/filter.cpp:62-69 | A numeric literal matches a stored number iff the two values are equal, for every pair of encodings. |
| `FilterLaws.NumericLiteralRejectsStringAndBool` | test/style/filter.cpp:70-72 | A numeric literal never matches a stored string or boolean. |
| `FilterLaws.TypeEqualsIff` | test/style/filter.cpp:76-80 | `["==", "$type", name]` holds exactly for features of that geometry type. |
| `FilterLaws.TypeInIff` | test/style/filter.cpp:82-87 | `["in", "$type", names...]` holds exactly for features whose geometry type is listed. |
| `FilterLaws.TypeKeyIgnoresProperties` | test/style/filter.cpp:76-87 | With key `$type`, `==`, `in`, `has` and `!has` do not depend on the properties, even one stored under "$type". |
| `FilterTests.FooIsOneChildren` | test/style/filter.cpp:91-96 | For `foo` = int64 1, `["==", "foo", 0]` is false and `["==", "foo", 1]` is true. |
| `FilterTests.EqualsString` | test/style/filter.cpp:56-60 | `["==", "foo", "bar"]` is true for "bar" and false for "baz". |
| `FilterTests.EqualsNumber` | test/style/filter.cpp:62-74 | Literal 0 matches int64, uint64 and double 0. It does not match 1 in any encoding, "0", `false`, `true` or a feature without `foo`. |
| `FilterTests.EqualsType` | test/style/filter.cpp:76-80 | `["==", "$type", "LineString"]` is false for a Point and true for a LineString. |
| `FilterTests.InType` | test/style/filter.cpp:82-87 | `["in", "$type", "LineString", "Polygon"]` is false for a Point and true for a LineString or a Polygon. |
| `FilterTests.AnyCases` | test/style/filter.cpp:89-97 | The four truth values the `any` test asserts. |
| `FilterTests.AllCases` | test/style/filter.cpp:99-107 | The four truth values the `all` test asserts. |
| `FilterTests.NoneCases` | test/style/filter.cpp:109-117 | The four truth values the `none` test asserts. |
| `FilterTests.HasCases` | test/style/filter.cpp:119-128 | `has foo` is true for the values 1, 0 and `false`, and false without `foo`. |
| `FilterTests.NotHasCases` | test/style/filter.cpp:130-139 | `!has foo` is false for the values 1, 0 and `false`, and true without `foo`. |

## Left out

- `RasterTileData` (src/mbgl/tile/raster_tile_data.hpp). The header only declares its constructor, `cancel`, `getBucket` and its members. There are no bodies to model. What it declares is network I/O, worker-thread concurrency and GPU texture upload.
- The evaluator's own header, src/mbgl/style/filter_evaluator.hpp, is not part of this model. Its behaviour is reconstructed from the unit tests. In particular, the model reads `$type` as the geometry type's name. The way the real evaluator encodes that name internally is not modelled.
- Parsing filter text from JSON (`parse`, test/style/filter.cpp:44-48) uses rapidjson, a foreign library. Filters are built directly as `Filter` terms. Rejecting malformed filters at parse time is therefore not modelled.
- `Values.Equal`: doubles are exact reals. IEEE-754 rounding, NaN, infinities and any precision lost when converting 64-bit integers to double are not modelled.
- `Values.EqualIsEquivalence`: reflexivity, symmetry and transitivity hold of the model's exact-value equality only. Under IEEE-754 doubles, NaN is not equal to itself. Also, comparing through a conversion to double would make int64 2^53+1 and int64 2^53 each equal to double 2^53 but not to each other.
- `getGeometries` (test/style/filter.cpp:35-37) returns an empty collection, and no filter consults it.
- `Features.Find`: with duplicate keys, the multimap's `find` returns one of the matching entries. The contract promises only "a value stored under the key". The body picks the first entry.
- The operators `!=`, `<`, `<=`, `>`, `>=` and `!in` are not exercised by the tests. Their semantics has no evidence in this source, so they are not modelled.
- The GoogleTest harness (`TEST`, `ASSERT_TRUE`, `ASSERT_FALSE`).
