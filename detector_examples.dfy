/**
 * The relationship rules applied to the schemas of the detector's unit
 * tests: the sample schema of users, products and orders, a schema with
 * unrelated fields, and two collections that share no field name.
 */
module DetectorExamples {
  import opened Text
  import opened Values
  import opened Seqs
  import opened DataModels
  import opened RelationshipDetector

  /** users, products and orders (type tags dropped). */
  function SampleShape(): Shape {
    [("users", ["id", "name", "email", "city", "money"]),
     ("products", ["product_id", "name", "category", "price", "location"]),
     ("orders", ["order_id", "user_id", "product_id", "customer_name", "product_category"])]
  }

  /** `orders.user_id` refers to `users.id` with confidence 0.9 (the plural of the stem names the collection). */
  lemma UserIdReferencesUsers()
    ensures FieldRelationship("orders", "user_id", "users", "id", OneToMany, 0.9) in IdEdges(SampleShape())
  {
    var shape := SampleShape();
    var e := FieldRelationship("orders", "user_id", "users", "id", OneToMany, 0.9);
    assert shape[2].1[1] == "user_id";
    assert Stem("user_id") == "user";
    assert !HasKey(shape, "user");
    assert FieldsOf(shape, "users") == shape[0].1;
    assert IsIdEdge(shape, "orders", "user_id", e);
    IdEdgesIff(shape, e);
  }

  /** `orders.product_id` refers to `products.product_id`: products has no `id`, so the field's own name is used. */
  lemma ProductIdReferencesProducts()
    ensures FieldRelationship("orders", "product_id", "products", "product_id", OneToMany, 0.9) in IdEdges(SampleShape())
  {
    var shape := SampleShape();
    var e := FieldRelationship("orders", "product_id", "products", "product_id", OneToMany, 0.9);
    assert shape[2].1[2] == "product_id";
    assert Stem("product_id") == "product";
    assert !HasKey(shape, "product");
    assert FieldsOf(shape, "products") == shape[1].1;
    assert "id" !in shape[1].1;
    assert IsIdEdge(shape, "orders", "product_id", e);
    IdEdgesIff(shape, e);
  }

  /** `orders.order_id` resolves to `orders` itself: the `_id` rule does not exclude the source collection. */
  lemma OrderIdReferencesItself()
    ensures FieldRelationship("orders", "order_id", "orders", "order_id", OneToMany, 0.9) in IdEdges(SampleShape())
  {
    var shape := SampleShape();
    var e := FieldRelationship("orders", "order_id", "orders", "order_id", OneToMany, 0.9);
    assert shape[2].1[0] == "order_id";
    assert Stem("order_id") == "order";
    assert !HasKey(shape, "order");
    assert FieldsOf(shape, "orders") == shape[2].1;
    assert "id" !in shape[2].1;
    assert IsIdEdge(shape, "orders", "order_id", e);
    IdEdgesIff(shape, e);
  }

  /**
   * A name-pass edge from its parts: the first underscore of `field` is at
   * `p`, the collection matches the (synonym-mapped) prefix and holds the
   * suffix as a field.
   */
  lemma NameEdgeIntro(shape: Shape, i: nat, field: string, p: nat, target: string)
    requires i < |shape| && field in shape[i].1
    requires p < |field| && field[p] == '_' && forall k :: 0 <= k < p ==> field[k] != '_'
    requires HasKey(shape, target) && TargetMatchesPrefix(target, Synonym(field[..p]))
    requires field[p + 1..] in FieldsOf(shape, target)
    ensures FieldRelationship(shape[i].0, field, target, field[p + 1..], OneToMany, 0.75) in NameEdges(shape)
  {
    IndexOfAt(field, '_', p);
    var e := FieldRelationship(shape[i].0, field, target, field[p + 1..], OneToMany, 0.75);
    assert IsNameEdge(shape, shape[i].0, field, e);
    NameEdgesIff(shape, e);
  }

  /** `orders.customer_name` refers to `users.name`: customer is a synonym of user. */
  lemma CustomerNameReferencesUsers()
    ensures FieldRelationship("orders", "customer_name", "users", "name", OneToMany, 0.75) in NameEdges(SampleShape())
  {
    var shape := SampleShape();
    assert shape[2].1[3] == "customer_name";
    assert StartsWith("users", "user");
    NameEdgeIntro(shape, 2, "customer_name", 8, "users");
  }

  /** `orders.product_category` refers to `products.category`: products starts with the entity name. */
  lemma ProductCategoryReferencesProducts()
    ensures FieldRelationship("orders", "product_category", "products", "category", OneToMany, 0.75)
      in NameEdges(SampleShape())
  {
    var shape := SampleShape();
    assert shape[2].1[4] == "product_category";
    assert StartsWith("products", "product");
    NameEdgeIntro(shape, 2, "product_category", 7, "products");
  }

  /** users and products with fields that name nothing. */
  function UnrelatedShape(): Shape {
    [("users", ["id", "name", "random_field"]),
     ("products", ["product_id", "description", "unrelated_field"])]
  }

  /** An `_id`-pass edge starts at an `_id` reference or at a field naming a collection. */
  lemma IdPassSource(shape: Shape, e: FieldRelationship)
    requires IsIdPassEdge(shape, e)
    ensures IsIdReference(e.sourceField) || exists t :: HasKey(shape, t) && MatchesCollectionName(e.sourceField, t)
  {
  }

  /** The keys of a two-collection schema are its two names. */
  lemma KeyOfTwo(shape: Shape, t: string)
    requires |shape| == 2 && HasKey(shape, t)
    ensures t == shape[0].0 || t == shape[1].0
  {
    var i := KeyIndex(shape, t);
  }

  /** The fixture's plain fields name neither `users` nor `products` and are no `_id` references. */
  lemma PlainFieldsUnmatched(f: string)
    requires f in ["random_field", "unrelated_field", "city", "location"]
    ensures !IsIdReference(f) && !MatchesCollectionName(f, "users") && !MatchesCollectionName(f, "products")
  {
    assert RStrip("users", 's') == "user";
    assert RStrip("products", 's') == "product";
  }

  /** Fields that neither end in `_id` nor name a collection produce no `_id`-pass edge. */
  lemma NoFalsePositives(e: FieldRelationship)
    requires e in IdEdges(UnrelatedShape())
    ensures e.sourceField != "random_field" && e.sourceField != "unrelated_field"
  {
    var shape := UnrelatedShape();
    IdEdgesIff(shape, e);
    IdPassSource(shape, e);
    var f := e.sourceField;
    if f == "random_field" || f == "unrelated_field" {
      PlainFieldsUnmatched(f);
      var t :| HasKey(shape, t) && MatchesCollectionName(f, t);
      KeyOfTwo(shape, t);
      assert false;
    }
  }

  /** users with a city, products with a location. */
  function CityLocationShape(): Shape {
    [("users", ["id", "city"]), ("products", ["product_id", "location"])]
  }

  /** In a two-collection schema, the holders of a field are read off the two entries. */
  lemma CollectionsWithFieldOfTwo(shape: Shape, field: string)
    requires |shape| == 2
    ensures CollectionsWithField(shape, field)
         == (if field in shape[0].1 then [shape[0].0] else []) + (if field in shape[1].1 then [shape[1].0] else [])
  {
    var step := HasFieldStep(field);
    assert shape[..1][..0] == [];
    assert shape[..1] == [shape[0]];
    assert ConcatMap(shape[..1], step) == step(shape[0]);
  }

  /** `city` and `location` are each held by one collection only, so neither yields a pair. */
  lemma NoCityOrLocationPairs(field: string)
    requires field == "city" || field == "location"
    ensures FieldCandidates(CityLocationShape(), field) == []
  {
    CollectionsWithFieldOfTwo(CityLocationShape(), field);
  }

  lemma IdPassNotCity(e: FieldRelationship)
    requires IsIdPassEdge(CityLocationShape(), e)
    ensures e.sourceField != "city" && e.sourceField != "location"
  {
    var shape := CityLocationShape();
    IdPassSource(shape, e);
    var f := e.sourceField;
    if f == "city" || f == "location" {
      PlainFieldsUnmatched(f);
      var t :| HasKey(shape, t) && MatchesCollectionName(f, t);
      KeyOfTwo(shape, t);
      assert false;
    }
  }

  /**
   * A field that no `_id`-pass edge starts at, that has no underscore and
   * that yields no common-field pair is never the source of a detected
   * relationship.
   */
  lemma FieldNeverSource(shape: Shape, overlap: Overlap, minConfidence: real, field: string)
    requires forall e :: IsIdPassEdge(shape, e) ==> e.sourceField != field
    requires '_' !in field
    requires FieldCandidates(shape, field) == []
    ensures forall e :: e in DetectAll(shape, overlap, minConfidence) ==> e.sourceField != field
  {
    DetectAllOrder(shape, overlap, minConfidence);
  }

  /**
   * Fields with different names are never paired, whatever the overlap:
   * no detected relationship starts at `city` or `location`.
   */
  lemma DifferentNamesNotPaired(overlap: Overlap)
    ensures forall e :: e in DetectAll(CityLocationShape(), overlap, 0.3) ==>
      e.sourceField != "city" && e.sourceField != "location"
  {
    var shape := CityLocationShape();
    forall e | IsIdPassEdge(shape, e)
      ensures e.sourceField != "city" && e.sourceField != "location"
    {
      IdPassNotCity(e);
    }
    NoCityOrLocationPairs("city");
    NoCityOrLocationPairs("location");
    FieldNeverSource(shape, overlap, 0.3, "city");
    FieldNeverSource(shape, overlap, 0.3, "location");
  }

  /** Sampled strings (no null among them) form the set of their values. */
  lemma StringSet(values: seq<Value>)
    requires forall k :: 0 <= k < |values| ==> values[k].Str?
    ensures NonNullSet(values) == set v | v in values
  {
    forall x
      ensures x in NonNullSet(values) <==> x in values
    {
      if x in values {
        assert EqKey(x) == x;
      }
    }
  }

  /** A sample of three strings has exactly those three as its non-null set. */
  lemma ThreeStrings(a: string, b: string, c: string)
    ensures NonNullSet([Str(a), Str(b), Str(c)]) == {Str(a), Str(b), Str(c)}
  {
    StringSet([Str(a), Str(b), Str(c)]);
  }

  lemma CitySets()
    ensures var s := NonNullSet([Str("New York"), Str("Chicago"), Str("Los Angeles")]);
      var t := NonNullSet([Str("New York"), Str("Chicago"), Str("Boston")]);
      |s| == 3 && |s * t| == 2
  {
    var ny, chi, la, bos := Str("New York"), Str("Chicago"), Str("Los Angeles"), Str("Boston");
    ThreeStrings("New York", "Chicago", "Los Angeles");
    ThreeStrings("New York", "Chicago", "Boston");
    assert {ny, chi, la} * {ny, chi, bos} == {ny, chi};
  }

  /** Three sampled cities, two of which occur among the sampled locations: the overlap is 2/3. */
  lemma TwoOfThreeCitiesOverlap()
    ensures var o := ValueOverlap(Docs([Str("New York"), Str("Chicago"), Str("Los Angeles")]),
                                  Docs([Str("New York"), Str("Chicago"), Str("Boston")]));
      0.5 < o <= 1.0 && o * 3.0 == 2.0
  {
    var source := Docs([Str("New York"), Str("Chicago"), Str("Los Angeles")]);
    var target := Docs([Str("New York"), Str("Chicago"), Str("Boston")]);
    CitySets();
    OverlapRatio(source, target);
  }

  /** A single matching value is a full overlap. */
  lemma SingleMatchingValueOverlaps()
    ensures ValueOverlap(Docs([Str("New York")]), Docs([Str("New York")])) == 1.0
  {
    var sample := Docs([Str("New York")]);
    StringSet(sample.values);
    assert NonNullSet(sample.values) == {Str("New York")};
    OverlapFull(sample, sample);
  }

  /** Samples that return no document give no overlap. */
  lemma EmptySamplesDoNotOverlap(other: Sample)
    ensures ValueOverlap(Docs([]), other) == 0.0
    ensures ValueOverlap(other, Docs([])) == 0.0
  {
  }

  /** The scoring cases of the unit tests. */
  lemma ConfidenceExamples()
    ensures CalculateRelationshipConfidence(100, 100, 0.0) == 1.0
    ensures 0.4 < CalculateRelationshipConfidence(50, 100, 0.5) < 0.6
    ensures CalculateRelationshipConfidence(0, 100, 0.5) == 0.25
    ensures CalculateRelationshipConfidence(0, 0, 0.0) == 0.0
  {
    ConfidenceUnclamped(100, 100, 0.0);
    ConfidenceUnclamped(50, 100, 0.5);
    ConfidenceUnclamped(0, 100, 0.5);
  }
}
