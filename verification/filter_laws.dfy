/**
 * Laws of the filter evaluator: what each operator means in terms of the
 * feature, independently of the order in which the evaluator scans lists.
 */
module FilterLaws {
  import opened Values
  import opened Features
  import opened Filters

  /** `Contains` finds `v` exactly when some listed literal equals it. */
  lemma {:induction false} ContainsIff(values: seq<Value>, v: Value)
    ensures Contains(values, v) <==> exists i :: 0 <= i < |values| && Equal(v, values[i])
  {
    if |values| > 0 {
      ContainsIff(values[1..], v);
      if Contains(values[1..], v) {
        var j :| 0 <= j < |values[1..]| && Equal(v, values[1..][j]);
        assert Equal(v, values[j + 1]);
      }
      forall i | 1 <= i < |values| && Equal(v, values[i])
        ensures Contains(values[1..], v)
      {
        assert values[1..][i - 1] == values[i];
      }
    }
  }

  /** `any` is true iff at least one child is true; false on the empty list. */
  lemma {:induction false} AnyIff(fs: seq<Filter>, feature: StubFeature)
    ensures Evaluate(Any(fs), feature) <==> exists i :: 0 <= i < |fs| && Evaluate(fs[i], feature)
  {
    if |fs| > 0 {
      AnyIff(fs[1..], feature);
      if AnyOf(fs[1..], feature) {
        var j :| 0 <= j < |fs[1..]| && Evaluate(fs[1..][j], feature);
        assert Evaluate(fs[j + 1], feature);
      }
      forall i | 1 <= i < |fs| && Evaluate(fs[i], feature)
        ensures AnyOf(fs[1..], feature)
      {
        assert fs[1..][i - 1] == fs[i];
      }
    }
  }

  /** `all` is true iff every child is true; true on the empty list. */
  lemma {:induction false} AllIff(fs: seq<Filter>, feature: StubFeature)
    ensures Evaluate(All(fs), feature) <==> forall i :: 0 <= i < |fs| ==> Evaluate(fs[i], feature)
  {
    if |fs| > 0 {
      AllIff(fs[1..], feature);
      if !AllOf(fs[1..], feature) {
        var j :| 0 <= j < |fs[1..]| && !Evaluate(fs[1..][j], feature);
        assert !Evaluate(fs[j + 1], feature);
      }
      forall i | 1 <= i < |fs| && AllOf(fs[1..], feature)
        ensures Evaluate(fs[i], feature)
      {
        assert fs[1..][i - 1] == fs[i];
      }
    }
  }

  /** `none` is true iff no child is true; true on the empty list. */
  lemma {:induction false} NoneIff(fs: seq<Filter>, feature: StubFeature)
    ensures Evaluate(None(fs), feature) <==> forall i :: 0 <= i < |fs| ==> !Evaluate(fs[i], feature)
  {
    if |fs| > 0 {
      NoneIff(fs[1..], feature);
      if !NoneOf(fs[1..], feature) {
        var j :| 0 <= j < |fs[1..]| && Evaluate(fs[1..][j], feature);
        assert Evaluate(fs[j + 1], feature);
      }
      forall i | 1 <= i < |fs| && NoneOf(fs[1..], feature)
        ensures !Evaluate(fs[i], feature)
      {
        assert fs[1..][i - 1] == fs[i];
      }
    }
  }

  /** `none` is the negation of `any` over the same children. */
  lemma NoneIsNotAny(fs: seq<Filter>, feature: StubFeature)
    ensures Evaluate(None(fs), feature) == !Evaluate(Any(fs), feature)
  {
    AnyIff(fs, feature);
    NoneIff(fs, feature);
  }

  /** `!has` is the negation of `has` for every key. */
  lemma NotHasIsNotHas(key: string, feature: StubFeature)
    ensures Evaluate(NotHas(key), feature) == !Evaluate(Has(key), feature)
  {
  }

  /**
   * `has` on a property key is true iff some entry is stored under the
   * key; the reserved type key is always present.
   */
  lemma HasIff(key: string, feature: StubFeature)
    ensures key != TypeKey ==> (Evaluate(Has(key), feature) <==> HasKey(feature.properties, key))
    ensures key == TypeKey ==> Evaluate(Has(key), feature)
  {
  }

  /** `has` does not look at the stored value: any value under the key makes it true. */
  lemma HasWhateverTheValue(key: string, v: Value, properties: Properties, kind: FeatureType)
    ensures Evaluate(Has(key), StubFeature(properties + [(key, v)], kind))
    ensures !Evaluate(NotHas(key), StubFeature(properties + [(key, v)], kind))
  {
    var props := properties + [(key, v)];
    assert props[|properties|].0 == key;
  }

  /**
   * `==` is true iff the key has a value and that value is the literal up to
   * numeric encoding.
   */
  lemma EqualsIff(key: string, literal: Value, feature: StubFeature)
    ensures Evaluate(Equals(key, literal), feature) <==>
      Lookup(feature, key).Some? && Canonical(Lookup(feature, key).value) == Canonical(literal)
  {
  }

  /** `in` is true iff the key has a value equal to one of the literals. */
  lemma InIff(key: string, literals: seq<Value>, feature: StubFeature)
    ensures Evaluate(In(key, literals), feature) <==>
      Lookup(feature, key).Some? &&
      exists i :: 0 <= i < |literals| && Equal(Lookup(feature, key).value, literals[i])
  {
    var actual := Lookup(feature, key);
    if actual.Some? {
      ContainsIff(literals, actual.value);
    }
  }

  /** `in` with one literal agrees with `==` on that literal. */
  lemma InOneIsEquals(key: string, literal: Value, feature: StubFeature)
    ensures Evaluate(In(key, [literal]), feature) == Evaluate(Equals(key, literal), feature)
  {
    InIff(key, [literal], feature);
  }

  /** A property that is absent makes `==` and `in` false, whatever the literals. */
  lemma AbsentNeverMatches(key: string, literal: Value, literals: seq<Value>, feature: StubFeature)
    requires key != TypeKey && !HasKey(feature.properties, key)
    ensures !Evaluate(Equals(key, literal), feature)
    ensures !Evaluate(In(key, literals), feature)
  {
  }

  /** A numeric literal matches a stored number iff their values agree, whatever the two encodings. */
  lemma NumericLiteralMatchesByValue(key: string, literal: Value, stored: Value, kind: FeatureType)
    requires key != TypeKey && IsNumber(literal) && IsNumber(stored)
    ensures Evaluate(Equals(key, literal), StubFeature([(key, stored)], kind)) <==>
      NumericValue(stored) == NumericValue(literal)
  {
  }

  /** A numeric literal never matches a stored string or boolean. */
  lemma NumericLiteralRejectsStringAndBool(key: string, literal: Value, stored: Value, kind: FeatureType)
    requires key != TypeKey && IsNumber(literal) && (stored.String? || stored.Bool?)
    ensures !Evaluate(Equals(key, literal), StubFeature([(key, stored)], kind))
  {
  }

  /** The literal names of a list of geometry types. */
  function TypeNames(ts: seq<FeatureType>): seq<Value> {
    seq(|ts|, i requires 0 <= i < |ts| => String(TypeName(ts[i])))
  }

  /** `["==", "$type", name]` holds exactly for features of that geometry type. */
  lemma TypeEqualsIff(t: FeatureType, feature: StubFeature)
    ensures Evaluate(Equals(TypeKey, String(TypeName(t))), feature) <==> feature.kind == t
  {
  }

  /** `["in", "$type", names...]` holds exactly for features of a listed geometry type. */
  lemma TypeInIff(ts: seq<FeatureType>, feature: StubFeature)
    ensures Evaluate(In(TypeKey, TypeNames(ts)), feature) <==> feature.kind in ts
  {
    var names := TypeNames(ts);
    InIff(TypeKey, names, feature);
    if feature.kind in ts {
      var i :| 0 <= i < |ts| && ts[i] == feature.kind;
      assert Equal(String(TypeName(feature.kind)), names[i]);
    }
  }

  /**
   * With the reserved type key, `==`, `in`, `has` and `!has` read only the
   * geometry type: the properties, even one stored under "$type", are
   * never consulted.
   */
  lemma TypeKeyIgnoresProperties(f: Filter, p1: Properties, p2: Properties, kind: FeatureType)
    requires (f.Equals? || f.In? || f.Has? || f.NotHas?) && f.key == TypeKey
    ensures Evaluate(f, StubFeature(p1, kind)) == Evaluate(f, StubFeature(p2, kind))
  {
  }
}
