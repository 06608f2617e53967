/**
 * The truth values the filter unit tests assert, as lemmas about the
 * model. A numeric literal's encoding is whatever the filter parser chose,
 * so the lemmas hold for every numeric encoding of it. An argument written
 * `{{}}` builds a one-entry multimap whose key is the empty string and
 * whose value is value-initialised; the lemmas hold for every such value.
 */
module FilterTests {
  import opened Values
  import opened Features
  import opened Filters
  import opened FilterLaws

  /** The feature `{{}}` of the tests, with `blank` its value-initialised entry. */
  function Blank(blank: Value): Properties {
    [("", blank)]
  }

  /** The feature `{{ "foo", int64_t(1) }}` the combinator tests use. */
  function FooIsOne(): StubFeature {
    StubFeature([("foo", Int(1))], Unknown)
  }

  /** On that feature, `["==", "foo", 0]` is false and `["==", "foo", 1]` is true. */
  lemma FooIsOneChildren(zero: Value, one: Value)
    requires IsLiteral(zero, 0.0) && IsLiteral(one, 1.0)
    ensures !Evaluate(Equals("foo", zero), FooIsOne())
    ensures Evaluate(Equals("foo", one), FooIsOne())
  {
  }

  /** A numeric literal with the given value. */
  predicate IsLiteral(n: Value, r: real) {
    IsNumber(n) && NumericValue(n) == r
  }

  /** `["==", "foo", "bar"]` matches the string "bar" and not "baz". */
  lemma EqualsString()
    ensures EvaluateProperties(Equals("foo", String("bar")), [("foo", String("bar"))])
    ensures !EvaluateProperties(Equals("foo", String("bar")), [("foo", String("baz"))])
  {
  }

  /** Literal 0 matches 0 in every encoding and nothing else: not 1, "0", a boolean or a missing `foo`. */
  lemma EqualsNumber(zero: Value, blank: Value)
    requires IsLiteral(zero, 0.0)
    ensures EvaluateProperties(Equals("foo", zero), [("foo", Int(0))])
    ensures EvaluateProperties(Equals("foo", zero), [("foo", UInt(0))])
    ensures EvaluateProperties(Equals("foo", zero), [("foo", Double(0.0))])
    ensures !EvaluateProperties(Equals("foo", zero), [("foo", Int(1))])
    ensures !EvaluateProperties(Equals("foo", zero), [("foo", UInt(1))])
    ensures !EvaluateProperties(Equals("foo", zero), [("foo", Double(1.0))])
    ensures !EvaluateProperties(Equals("foo", zero), [("foo", String("0"))])
    ensures !EvaluateProperties(Equals("foo", zero), [("foo", Bool(false))])
    ensures !EvaluateProperties(Equals("foo", zero), [("foo", Bool(true))])
    ensures !EvaluateProperties(Equals("foo", zero), Blank(blank))
  {
  }

  /** `["==", "$type", "LineString"]` rejects a Point and accepts a LineString. */
  lemma EqualsType(blank: Value)
    ensures !EvaluateProperties(Equals(TypeKey, String("LineString")), Blank(blank), Point)
    ensures EvaluateProperties(Equals(TypeKey, String("LineString")), Blank(blank), LineString)
  {
  }

  /** `["in", "$type", "LineString", "Polygon"]` rejects a Point and accepts a LineString or a Polygon. */
  lemma InType(blank: Value)
    ensures !EvaluateProperties(In(TypeKey, [String("LineString"), String("Polygon")]), Blank(blank), Point)
    ensures EvaluateProperties(In(TypeKey, [String("LineString"), String("Polygon")]), Blank(blank), LineString)
    ensures EvaluateProperties(In(TypeKey, [String("LineString"), String("Polygon")]), Blank(blank), Polygon)
  {
    var names := [String("LineString"), String("Polygon")];
    assert TypeNames([LineString, Polygon]) == names;
    TypeInIff([LineString, Polygon], StubFeature(Blank(blank), Point));
    TypeInIff([LineString, Polygon], StubFeature(Blank(blank), LineString));
    TypeInIff([LineString, Polygon], StubFeature(Blank(blank), Polygon));
  }

  /** `any` of no children is false; otherwise it is true iff one child holds. */
  lemma AnyCases(zero: Value, one: Value, blank: Value)
    requires IsLiteral(zero, 0.0) && IsLiteral(one, 1.0)
    ensures !EvaluateProperties(Any([]), Blank(blank))
    ensures EvaluateProperties(Any([Equals("foo", one)]), [("foo", Int(1))])
    ensures !EvaluateProperties(Any([Equals("foo", zero)]), [("foo", Int(1))])
    ensures EvaluateProperties(Any([Equals("foo", zero), Equals("foo", one)]), [("foo", Int(1))])
  {
    FooIsOneChildren(zero, one);
    AnyIff([Equals("foo", one)], FooIsOne());
    AnyIff([Equals("foo", zero)], FooIsOne());
    AnyIff([Equals("foo", zero), Equals("foo", one)], FooIsOne());
  }

  /** `all` of no children is true; otherwise it is true iff every child holds. */
  lemma AllCases(zero: Value, one: Value, blank: Value)
    requires IsLiteral(zero, 0.0) && IsLiteral(one, 1.0)
    ensures EvaluateProperties(All([]), Blank(blank))
    ensures EvaluateProperties(All([Equals("foo", one)]), [("foo", Int(1))])
    ensures !EvaluateProperties(All([Equals("foo", zero)]), [("foo", Int(1))])
    ensures !EvaluateProperties(All([Equals("foo", zero), Equals("foo", one)]), [("foo", Int(1))])
  {
    FooIsOneChildren(zero, one);
    AllIff([Equals("foo", one)], FooIsOne());
    AllIff([Equals("foo", zero)], FooIsOne());
    AllIff([Equals("foo", zero), Equals("foo", one)], FooIsOne());
  }

  /** `none` of no children is true; otherwise it is true iff no child holds. */
  lemma NoneCases(zero: Value, one: Value, blank: Value)
    requires IsLiteral(zero, 0.0) && IsLiteral(one, 1.0)
    ensures EvaluateProperties(None([]), Blank(blank))
    ensures !EvaluateProperties(None([Equals("foo", one)]), [("foo", Int(1))])
    ensures EvaluateProperties(None([Equals("foo", zero)]), [("foo", Int(1))])
    ensures !EvaluateProperties(None([Equals("foo", zero), Equals("foo", one)]), [("foo", Int(1))])
  {
    FooIsOneChildren(zero, one);
    NoneIff([Equals("foo", one)], FooIsOne());
    NoneIff([Equals("foo", zero)], FooIsOne());
    NoneIff([Equals("foo", zero), Equals("foo", one)], FooIsOne());
  }

  /** `has foo` holds for the values 1, 0 and `false`, and fails without `foo`. */
  lemma HasCases(blank: Value)
    ensures EvaluateProperties(Has("foo"), [("foo", Int(1))])
    ensures EvaluateProperties(Has("foo"), [("foo", Int(0))])
    ensures EvaluateProperties(Has("foo"), [("foo", Bool(false))])
    ensures !EvaluateProperties(Has("foo"), Blank(blank))
  {
  }

  /** `!has foo` fails for the values 1, 0 and `false`, and holds without `foo`. */
  lemma NotHasCases(blank: Value)
    ensures !EvaluateProperties(NotHas("foo"), [("foo", Int(1))])
    ensures !EvaluateProperties(NotHas("foo"), [("foo", Int(0))])
    ensures !EvaluateProperties(NotHas("foo"), [("foo", Bool(false))])
    ensures EvaluateProperties(NotHas("foo"), Blank(blank))
  {
  }
}
