/**
 * The stub feature the filter tests evaluate against: a property multimap
 * and a geometry type, both fixed at construction.
 */
module Features {
  import opened Values
  import opened Wrappers

  /** The geometry type tag of a feature. */
  datatype FeatureType = Unknown | Point | LineString | Polygon

  /** A property multimap, as its (key, value) entries. */
  type Properties = seq<(string, Value)>

  /** A read-only feature: its properties and its geometry type. */
  datatype StubFeature = StubFeature(properties: Properties, kind: FeatureType)

  /** Some entry of `props` is stored under `key`. */
  predicate HasKey(props: Properties, key: string) {
    exists i :: 0 <= i < |props| && props[i].0 == key
  }

  /**
   * Multimap lookup: absent exactly when no entry has the key, otherwise a
   * value stored under that key (here the first such entry; the multimap
   * only promises one of them).
   */
  function Find(props: Properties, key: string): (r: Option<Value>)
    ensures r.None? <==> !HasKey(props, key)
    ensures r.Some? ==> (key, r.value) in props
  {
    if props == [] then None
    else if props[0].0 == key then Some(props[0].1)
    else Find(props[1..], key)
  }

  /** `getValue`: the feature's property under `key`, or absent. */
  function GetValue(feature: StubFeature, key: string): (r: Option<Value>)
    ensures r.None? <==> !HasKey(feature.properties, key)
    ensures r.Some? ==> (key, r.value) in feature.properties
  {
    Find(feature.properties, key)
  }
}
