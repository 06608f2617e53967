/**
 * The style filter tree and its evaluator: a pure predicate deciding
 * whether a feature matches a style layer's filter.
 */
module Filters {
  import opened Values
  import opened Features
  import Wrappers

  /** The reserved key that reads the geometry type instead of a property. */
  const TypeKey: string := "$type"

  /** The name a filter literal uses for a geometry type. */
  function TypeName(t: FeatureType): string {
    match t
    case Unknown => "Unknown"
    case Point => "Point"
    case LineString => "LineString"
    case Polygon => "Polygon"
  }

  /**
   * A parsed filter: `["==", key, value]`, `["in", key, values...]`,
   * `["any", ...]`, `["all", ...]`, `["none", ...]`, `["has", key]` and
   * `["!has", key]`.
   */
  datatype Filter =
    | Equals(key: string, value: Value)
    | In(key: string, values: seq<Value>)
    | Any(filters: seq<Filter>)
    | All(filters: seq<Filter>)
    | None(filters: seq<Filter>)
    | Has(key: string)
    | NotHas(key: string)

  /**
   * What a filter reads under `key`: the geometry type, by name, for the
   * reserved key, the feature's property otherwise.
   */
  function Lookup(feature: StubFeature, key: string): (r: Wrappers.Option<Value>)
    ensures key == TypeKey ==> r == Wrappers.Some(String(TypeName(feature.kind)))
    ensures key != TypeKey ==> (r.None? <==> !HasKey(feature.properties, key))
    ensures key != TypeKey && r.Some? ==> (key, r.value) in feature.properties
  {
    if key == TypeKey then Wrappers.Some(String(TypeName(feature.kind)))
    else GetValue(feature, key)
  }

  /** Whether `v` equals one of `values`, scanning them in order. */
  function Contains(values: seq<Value>, v: Value): bool {
    |values| > 0 && (Equal(v, values[0]) || Contains(values[1..], v))
  }

  /** Whether `feature` matches `f`. */
  function Evaluate(f: Filter, feature: StubFeature): bool
    decreases f
  {
    match f
    case Equals(k, v) =>
      var actual := Lookup(feature, k);
      actual.Some? && Equal(actual.value, v)
    case In(k, vs) =>
      var actual := Lookup(feature, k);
      actual.Some? && Contains(vs, actual.value)
    case Any(fs) => AnyOf(fs, feature)
    case All(fs) => AllOf(fs, feature)
    case None(fs) => NoneOf(fs, feature)
    case Has(k) => Lookup(feature, k).Some?
    case NotHas(k) => Lookup(feature, k).None?
  }

  /** `any`: stops at the first child that matches. */
  function AnyOf(fs: seq<Filter>, feature: StubFeature): bool
    decreases fs
  {
    |fs| > 0 && (Evaluate(fs[0], feature) || AnyOf(fs[1..], feature))
  }

  /** `all`: stops at the first child that does not match. */
  function AllOf(fs: seq<Filter>, feature: StubFeature): bool
    decreases fs
  {
    |fs| == 0 || (Evaluate(fs[0], feature) && AllOf(fs[1..], feature))
  }

  /** `none`: stops at the first child that matches. */
  function NoneOf(fs: seq<Filter>, feature: StubFeature): bool
    decreases fs
  {
    |fs| == 0 || (!Evaluate(fs[0], feature) && NoneOf(fs[1..], feature))
  }

  /** The `evaluate` helper of the tests: the geometry type defaults to Unknown. */
  function EvaluateProperties(f: Filter, properties: Properties, kind: FeatureType := Unknown): bool {
    Evaluate(f, StubFeature(properties, kind))
  }
}
