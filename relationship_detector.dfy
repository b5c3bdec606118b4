/**
 * Relationship inference between collections: two name-pattern passes over
 * the schema (the `_id` pass and the name pass), a value-overlap score over
 * sampled field values, a confidence formula, and the combination of the
 * passes with de-duplication and a confidence threshold.
 *
 * The schema is an ordered map collection -> (field -> type tag), in the
 * insertion order of the Python dicts. Only names are ever consulted, so
 * every specification is stated over `Shape`, the schema with its type tags
 * dropped.
 */
module RelationshipDetector {
  import opened Text
  import opened Values
  import opened Seqs
  import opened DataModels

  /** collection name -> ordered (field name, type tag) pairs */
  type Schema = seq<(string, seq<(string, string)>)>

  /** collection name -> ordered field names */
  type Shape = seq<(string, seq<string>)>

  function FieldNames(fields: seq<(string, string)>): seq<string> {
    seq(|fields|, k requires 0 <= k < |fields| => fields[k].0)
  }

  /** The names of a schema, without its type tags. */
  function ShapeOf(schema: Schema): Shape {
    seq(|schema|, i requires 0 <= i < |schema| => (schema[i].0, FieldNames(schema[i].1)))
  }

  /** `schema_info[c]` as a list of field names (empty for an absent collection). */
  function FieldsOf(shape: Shape, c: string): seq<string> {
    match Lookup(shape, c)
    case Some(fields) => fields
    case None => []
  }

  lemma KeyAtIndex(shape: Shape, i: nat)
    requires i < |shape|
    ensures HasKey(shape, shape[i].0)
  {
  }

  // ---------------------------------------------------------------------
  // The `_id` pass, first rule: `<stem>_id` refers to the collection named
  // after the stem.
  // ---------------------------------------------------------------------

  /** A field that names another record: it ends in `_id` and is not `_id` itself. */
  predicate IsIdReference(field: string) {
    EndsWith(field, "_id") && field != "_id"
  }

  /** `field[:-3]` */
  function Stem(field: string): string
    requires EndsWith(field, "_id")
  {
    field[..|field| - 3]
  }

  /** The stem with `_id` put back is the field itself. */
  lemma StemRestores(field: string)
    requires EndsWith(field, "_id")
    ensures Stem(field) + "_id" == field
  {
  }

  /** The collection a stem resolves to: the stem itself, else its plural, else its singular. */
  function ResolveIdTarget(shape: Shape, stem: string): (t: Option<string>)
    ensures t.Some? ==> HasKey(shape, t.value)
  {
    if HasKey(shape, stem) then Some(stem)
    else if HasKey(shape, stem + "s") then Some(stem + "s")
    else if EndsWith(stem, "s") && HasKey(shape, stem[..|stem| - 1]) then Some(stem[..|stem| - 1])
    else None
  }

  /** The referenced field in the target: `id`, else the source field's own name, else `<stem>_id`. */
  function IdTargetField(shape: Shape, target: string, field: string, stem: string): Option<string> {
    var fields := FieldsOf(shape, target);
    if "id" in fields then Some("id")
    else if field in fields then Some(field)
    else if stem + "_id" in fields then Some(stem + "_id")
    else None
  }

  /** The edge the `_id` rule emits for one field (none or one). */
  function IdRuleEdges(shape: Shape, source: string, field: string): seq<FieldRelationship> {
    if !IsIdReference(field) then []
    else
      var stem := Stem(field);
      match ResolveIdTarget(shape, stem)
      case None => []
      case Some(target) =>
        if target == "" then []
        else
          match IdTargetField(shape, target, field, stem)
          case None => []
          case Some(targetField) =>
            if targetField == "" then []
            else [FieldRelationship(source, field, target, targetField, OneToMany, 0.9)]
  }

  /**
   * The `_id` rule, stated declaratively: the target collection is the
   * first of stem, stem + "s", stem minus a trailing "s" that exists and is
   * non-empty; the target field is `id` when the target has one and the
   * source field's own name otherwise, and it must exist.
   */
  predicate IsIdEdge(shape: Shape, source: string, field: string, e: FieldRelationship) {
    IsIdReference(field)
    && e.sourceCollection == source && e.sourceField == field
    && var stem := Stem(field);
    && var t := e.targetCollection;
    && t != "" && HasKey(shape, t)
    && (t == stem
        || (t == stem + "s" && !HasKey(shape, stem))
        || (EndsWith(stem, "s") && t == stem[..|stem| - 1] && !HasKey(shape, stem) && !HasKey(shape, stem + "s")))
    && e.targetField in FieldsOf(shape, t)
    && e.targetField == (if "id" in FieldsOf(shape, t) then "id" else field)
    && e.relationshipType == OneToMany && e.confidenceScore == 0.9
  }

  /**
   * The rule emits at most one edge, and exactly the edge described by
   * `IsIdEdge`; in particular the `<stem>_id` fallback never decides
   * anything, since it names the source field again.
   */
  lemma IdRuleEdgesIff(shape: Shape, source: string, field: string, e: FieldRelationship)
    ensures |IdRuleEdges(shape, source, field)| <= 1
    ensures e in IdRuleEdges(shape, source, field) <==> IsIdEdge(shape, source, field, e)
  {
    if IsIdReference(field) {
      StemRestores(field);
    }
  }

  // ---------------------------------------------------------------------
  // The `_id` pass, second rule: a field named like another collection.
  // ---------------------------------------------------------------------

  /** The field is the collection's name, its name without trailing "s", or its singular. */
  predicate MatchesCollectionName(field: string, target: string) {
    field == target || field == RStrip(target, 's') || field + "s" == target
  }

  /** `'id'` when the target has it, else `'_id'` (whether or not `_id` was sampled). */
  function DefaultIdField(shape: Shape, target: string): string {
    if "id" in FieldsOf(shape, target) then "id" else "_id"
  }

  function CollectionNameEdge(shape: Shape, source: string, field: string, target: string): seq<FieldRelationship> {
    if target != source && MatchesCollectionName(field, target) then
      [FieldRelationship(source, field, target, DefaultIdField(shape, target), OneToMany, 0.7)]
    else []
  }

  function CollectionNameStep(shape: Shape, source: string, field: string): ((string, seq<string>)) -> seq<FieldRelationship> {
    (entry: (string, seq<string>)) => CollectionNameEdge(shape, source, field, entry.0)
  }

  /** The edges of the collection-name rule for one field, one per matching collection in schema order. */
  function CollectionNameEdges(shape: Shape, source: string, field: string): seq<FieldRelationship> {
    ConcatMap(shape, CollectionNameStep(shape, source, field))
  }

  predicate IsCollectionNameEdge(shape: Shape, source: string, field: string, e: FieldRelationship) {
    e.sourceCollection == source && e.sourceField == field
    && HasKey(shape, e.targetCollection) && e.targetCollection != source
    && MatchesCollectionName(field, e.targetCollection)
    && e.targetField == DefaultIdField(shape, e.targetCollection)
    && e.relationshipType == OneToMany && e.confidenceScore == 0.7
  }

  /** The collection-name rule links a field to exactly the other collections it names. */
  lemma CollectionNameEdgesIff(shape: Shape, source: string, field: string, e: FieldRelationship)
    ensures e in CollectionNameEdges(shape, source, field) <==> IsCollectionNameEdge(shape, source, field, e)
  {
    var step := CollectionNameStep(shape, source, field);
    ConcatMapMember(shape, step, e);
    if IsCollectionNameEdge(shape, source, field, e) {
      var k := KeyIndex(shape, e.targetCollection);
      assert e in step(shape[k]);
    }
  }

  // ---------------------------------------------------------------------
  // The whole `_id` pass
  // ---------------------------------------------------------------------

  /** Both rules of the `_id` pass for one field. */
  function IdFieldEdges(shape: Shape, source: string, field: string): seq<FieldRelationship> {
    IdRuleEdges(shape, source, field) + CollectionNameEdges(shape, source, field)
  }

  function IdFieldStep(shape: Shape, source: string): string -> seq<FieldRelationship> {
    (field: string) => IdFieldEdges(shape, source, field)
  }

  function IdCollectionStep(shape: Shape): ((string, seq<string>)) -> seq<FieldRelationship> {
    (entry: (string, seq<string>)) => ConcatMap(entry.1, IdFieldStep(shape, entry.0))
  }

  /** The result of the `_id` pass: collections in order, fields in order, rules in order. */
  function IdEdges(shape: Shape): seq<FieldRelationship> {
    ConcatMap(shape, IdCollectionStep(shape))
  }

  /** An edge of the `_id` pass starts at a field present in the schema and follows one of the two rules. */
  predicate IsIdPassEdge(shape: Shape, e: FieldRelationship) {
    exists i :: 0 <= i < |shape| && shape[i].0 == e.sourceCollection && e.sourceField in shape[i].1
      && (IsIdEdge(shape, e.sourceCollection, e.sourceField, e)
          || IsCollectionNameEdge(shape, e.sourceCollection, e.sourceField, e))
  }

  lemma IdEdgesIff(shape: Shape, e: FieldRelationship)
    ensures e in IdEdges(shape) <==> IsIdPassEdge(shape, e)
  {
    ConcatMapMember(shape, IdCollectionStep(shape), e);
    forall i | 0 <= i < |shape|
      ensures e in IdCollectionStep(shape)(shape[i])
          <==> exists k :: 0 <= k < |shape[i].1| && e in IdFieldEdges(shape, shape[i].0, shape[i].1[k])
    {
      ConcatMapMember(shape[i].1, IdFieldStep(shape, shape[i].0), e);
    }
    forall i, k | 0 <= i < |shape| && 0 <= k < |shape[i].1|
      ensures e in IdFieldEdges(shape, shape[i].0, shape[i].1[k])
          <==> IsIdEdge(shape, shape[i].0, shape[i].1[k], e) || IsCollectionNameEdge(shape, shape[i].0, shape[i].1[k], e)
    {
      IdRuleEdgesIff(shape, shape[i].0, shape[i].1[k], e);
      CollectionNameEdgesIff(shape, shape[i].0, shape[i].1[k], e);
    }
    if IsIdPassEdge(shape, e) {
      var i :| 0 <= i < |shape| && shape[i].0 == e.sourceCollection && e.sourceField in shape[i].1
        && (IsIdEdge(shape, e.sourceCollection, e.sourceField, e)
            || IsCollectionNameEdge(shape, e.sourceCollection, e.sourceField, e));
      var k :| 0 <= k < |shape[i].1| && shape[i].1[k] == e.sourceField;
      assert e in IdFieldEdges(shape, shape[i].0, shape[i].1[k]);
    }
  }

  /** Every edge of the `_id` pass is one-to-many, with confidence 0.9 or 0.7. */
  lemma IdEdgesKinds(shape: Shape, e: FieldRelationship)
    requires e in IdEdges(shape)
    ensures e.relationshipType == OneToMany
    ensures e.confidenceScore == 0.9 || e.confidenceScore == 0.7
  {
    IdEdgesIff(shape, e);
  }

  /** The inner loop of the collection-name rule: every collection is tried as a target, in order. */
  method CollectionNameLoop(schema: Schema, source: string, field: string) returns (edges: seq<FieldRelationship>)
    ensures edges == CollectionNameEdges(ShapeOf(schema), source, field)
  {
    ghost var shape := ShapeOf(schema);
    ghost var step := CollectionNameStep(shape, source, field);
    edges := [];
    var j := 0;
    while j < |schema|
      invariant j <= |schema|
      invariant edges == ConcatMap(shape[..j], step)
    {
      var target := schema[j].0;
      ConcatMapPrefix(shape, j, step);
      assert step(shape[j]) == CollectionNameEdge(shape, source, field, target);
      if target != source && MatchesCollectionName(field, target) {
        edges := edges + [FieldRelationship(source, field, target, DefaultIdField(ShapeOf(schema), target), OneToMany, 0.7)];
      }
      j := j + 1;
    }
    assert shape[..|schema|] == shape;
  }

  /** The loop over the fields of collection `i`, applying both rules to each field. */
  method IdFieldsLoop(schema: Schema, i: nat) returns (edges: seq<FieldRelationship>)
    requires i < |schema|
    ensures edges == ConcatMap(FieldNames(schema[i].1), IdFieldStep(ShapeOf(schema), schema[i].0))
  {
    ghost var shape := ShapeOf(schema);
    var source := schema[i].0;
    var fields := schema[i].1;
    ghost var names := FieldNames(fields);
    ghost var step := IdFieldStep(shape, source);
    edges := [];
    var k := 0;
    while k < |fields|
      invariant k <= |fields|
      invariant edges == ConcatMap(names[..k], step)
    {
      var field := fields[k].0;
      var nameEdges := CollectionNameLoop(schema, source, field);
      ConcatMapPrefix(names, k, step);
      edges := edges + (IdRuleEdges(ShapeOf(schema), source, field) + nameEdges);
      k := k + 1;
    }
    assert names[..|fields|] == names;
  }

  /** `detect_id_field_relationships`: nested loops appending the edges of each rule. */
  method DetectIdFieldRelationships(schema: Schema) returns (rels: seq<FieldRelationship>)
    ensures rels == IdEdges(ShapeOf(schema))
  {
    ghost var shape := ShapeOf(schema);
    rels := [];
    var i := 0;
    while i < |schema|
      invariant i <= |schema|
      invariant rels == ConcatMap(shape[..i], IdCollectionStep(shape))
    {
      var edges := IdFieldsLoop(schema, i);
      ConcatMapPrefix(shape, i, IdCollectionStep(shape));
      rels := rels + edges;
      i := i + 1;
    }
    assert shape[..|schema|] == shape;
  }

  // ---------------------------------------------------------------------
  // The name pass: `<entity>_<field>` refers to field `<field>` of the
  // collection named after the entity.
  // ---------------------------------------------------------------------

  /** The entity synonyms: customer and client mean user, item and good mean product. */
  function Synonym(prefix: string): string {
    if prefix == "customer" || prefix == "client" then "user"
    else if prefix == "item" || prefix == "good" then "product"
    else prefix
  }

  /**
   * `parts[0]` and `'_'.join(parts[1:])` of `field.split('_')`: the text
   * before the first underscore and the text after it.
   */
  function NameParts(field: string): (parts: (string, string))
    requires '_' in field
    ensures parts.0 == field[..IndexOf(field, '_')]
    ensures parts.1 == field[IndexOf(field, '_') + 1..]
  {
    SplitAtFirst(field, '_');
    var pieces := Split(field, '_');
    (pieces[0], Join(pieces[1..], "_"))
  }

  /** The collection starts with the entity name, or is it once trailing "s" are removed. */
  predicate TargetMatchesPrefix(target: string, prefix: string) {
    StartsWith(target, prefix) || RStrip(target, 's') == prefix
  }

  function NameEdge(shape: Shape, source: string, field: string, prefix: string, suffix: string, target: string)
    : seq<FieldRelationship>
  {
    if TargetMatchesPrefix(target, prefix) && suffix in FieldsOf(shape, target) then
      [FieldRelationship(source, field, target, suffix, OneToMany, 0.75)]
    else []
  }

  function NameStep(shape: Shape, source: string, field: string, prefix: string, suffix: string)
    : ((string, seq<string>)) -> seq<FieldRelationship>
  {
    (entry: (string, seq<string>)) => NameEdge(shape, source, field, prefix, suffix, entry.0)
  }

  /** The name-pass edges of one field, one per matching collection in schema order (the source included). */
  function NameFieldEdges(shape: Shape, source: string, field: string): seq<FieldRelationship> {
    if '_' in field then
      var parts := NameParts(field);
      ConcatMap(shape, NameStep(shape, source, field, Synonym(parts.0), parts.1))
    else []
  }

  function NameFieldStep(shape: Shape, source: string): string -> seq<FieldRelationship> {
    (field: string) => NameFieldEdges(shape, source, field)
  }

  function NameCollectionStep(shape: Shape): ((string, seq<string>)) -> seq<FieldRelationship> {
    (entry: (string, seq<string>)) => ConcatMap(entry.1, NameFieldStep(shape, entry.0))
  }

  /** The result of the name pass. */
  function NameEdges(shape: Shape): seq<FieldRelationship> {
    ConcatMap(shape, NameCollectionStep(shape))
  }

  /**
   * The name rule: the field has an underscore; the entity before it,
   * translated by the synonyms, matches the target collection; the text
   * after it is a field of the target, and is the target field.
   */
  predicate IsNameEdge(shape: Shape, source: string, field: string, e: FieldRelationship) {
    '_' in field
    && e.sourceCollection == source && e.sourceField == field
    && HasKey(shape, e.targetCollection)
    && TargetMatchesPrefix(e.targetCollection, Synonym(field[..IndexOf(field, '_')]))
    && e.targetField == field[IndexOf(field, '_') + 1..]
    && e.targetField in FieldsOf(shape, e.targetCollection)
    && e.relationshipType == OneToMany && e.confidenceScore == 0.75
  }

  lemma NameFieldEdgesIff(shape: Shape, source: string, field: string, e: FieldRelationship)
    ensures e in NameFieldEdges(shape, source, field) <==> IsNameEdge(shape, source, field, e)
  {
    if '_' in field {
      var parts := NameParts(field);
      var step := NameStep(shape, source, field, Synonym(parts.0), parts.1);
      ConcatMapMember(shape, step, e);
      if IsNameEdge(shape, source, field, e) {
        var k := KeyIndex(shape, e.targetCollection);
        assert e in step(shape[k]);
      }
    }
  }

  predicate IsNamePassEdge(shape: Shape, e: FieldRelationship) {
    exists i :: 0 <= i < |shape| && shape[i].0 == e.sourceCollection && e.sourceField in shape[i].1
      && IsNameEdge(shape, e.sourceCollection, e.sourceField, e)
  }

  lemma NameEdgesIff(shape: Shape, e: FieldRelationship)
    ensures e in NameEdges(shape) <==> IsNamePassEdge(shape, e)
  {
    ConcatMapMember(shape, NameCollectionStep(shape), e);
    forall i | 0 <= i < |shape|
      ensures e in NameCollectionStep(shape)(shape[i])
          <==> exists k :: 0 <= k < |shape[i].1| && e in NameFieldEdges(shape, shape[i].0, shape[i].1[k])
    {
      ConcatMapMember(shape[i].1, NameFieldStep(shape, shape[i].0), e);
    }
    forall i, k | 0 <= i < |shape| && 0 <= k < |shape[i].1|
      ensures e in NameFieldEdges(shape, shape[i].0, shape[i].1[k]) <==> IsNameEdge(shape, shape[i].0, shape[i].1[k], e)
    {
      NameFieldEdgesIff(shape, shape[i].0, shape[i].1[k], e);
    }
    if IsNamePassEdge(shape, e) {
      var i :| 0 <= i < |shape| && shape[i].0 == e.sourceCollection && e.sourceField in shape[i].1
        && IsNameEdge(shape, e.sourceCollection, e.sourceField, e);
      var k :| 0 <= k < |shape[i].1| && shape[i].1[k] == e.sourceField;
      assert e in NameFieldEdges(shape, shape[i].0, shape[i].1[k]);
    }
  }

  /** The inner loop of the name rule: every collection is tried as a target, in order. */
  method NameLoop(schema: Schema, source: string, field: string, prefix: string, suffix: string)
    returns (edges: seq<FieldRelationship>)
    ensures edges == ConcatMap(ShapeOf(schema), NameStep(ShapeOf(schema), source, field, prefix, suffix))
  {
    ghost var shape := ShapeOf(schema);
    ghost var step := NameStep(shape, source, field, prefix, suffix);
    edges := [];
    var j := 0;
    while j < |schema|
      invariant j <= |schema|
      invariant edges == ConcatMap(shape[..j], step)
    {
      var target := schema[j].0;
      ConcatMapPrefix(shape, j, step);
      assert step(shape[j]) == NameEdge(shape, source, field, prefix, suffix, target);
      if TargetMatchesPrefix(target, prefix) && suffix in FieldsOf(ShapeOf(schema), target) {
        edges := edges + [FieldRelationship(source, field, target, suffix, OneToMany, 0.75)];
      }
      j := j + 1;
    }
    assert shape[..|schema|] == shape;
  }

  /** The loop over the fields of collection `i`, splitting each underscored name into entity and field. */
  method NameFieldsLoop(schema: Schema, i: nat) returns (edges: seq<FieldRelationship>)
    requires i < |schema|
    ensures edges == ConcatMap(FieldNames(schema[i].1), NameFieldStep(ShapeOf(schema), schema[i].0))
  {
    ghost var shape := ShapeOf(schema);
    var source := schema[i].0;
    var fields := schema[i].1;
    ghost var names := FieldNames(fields);
    ghost var step := NameFieldStep(shape, source);
    edges := [];
    var k := 0;
    while k < |fields|
      invariant k <= |fields|
      invariant edges == ConcatMap(names[..k], step)
    {
      var field := fields[k].0;
      ConcatMapPrefix(names, k, step);
      if '_' in field {
        var parts := NameParts(field);
        var targets := NameLoop(schema, source, field, Synonym(parts.0), parts.1);
        edges := edges + targets;
      }
      k := k + 1;
    }
    assert names[..|fields|] == names;
  }

  /** `detect_name_based_relationships`: nested loops appending one edge per matching target. */
  method DetectNameBasedRelationships(schema: Schema) returns (rels: seq<FieldRelationship>)
    ensures rels == NameEdges(ShapeOf(schema))
  {
    ghost var shape := ShapeOf(schema);
    rels := [];
    var i := 0;
    while i < |schema|
      invariant i <= |schema|
      invariant rels == ConcatMap(shape[..i], NameCollectionStep(shape))
    {
      var edges := NameFieldsLoop(schema, i);
      ConcatMapPrefix(shape, i, NameCollectionStep(shape));
      rels := rels + edges;
      i := i + 1;
    }
    assert shape[..|schema|] == shape;
  }

  // ---------------------------------------------------------------------
  // Value overlap between two sampled fields
  // ---------------------------------------------------------------------

  /**
   * What one sampling query returned: an error (any exception), or
   * `doc.get(field)` for each returned document (at most the sample size).
   */
  datatype Sample = QueryFailed | Docs(values: seq<Value>)

  /** `{v for v in values if v is not None}`, values identified up to Python `==`. */
  function NonNullSet(values: seq<Value>): set<Value> {
    set v | v in values && v != Null :: EqKey(v)
  }

  /** Building the set raises `TypeError` unless every collected value is hashable. */
  predicate AllHashable(values: seq<Value>) {
    forall v :: v in values ==> Hashable(v)
  }

  /**
   * `detect_value_overlap_relationships` over given samples: 0.0 when a
   * query fails, returns no document, yields no non-null value or an
   * unhashable one; otherwise the share of the source's distinct values that
   * also occur in the target, capped at 1.0.
   */
  function ValueOverlap(source: Sample, target: Sample): (r: Confidence) {
    if source.QueryFailed? || source.values == [] then 0.0
    else if !AllHashable(source.values) then 0.0
    else
      var s := NonNullSet(source.values);
      if s == {} then 0.0
      else if target.QueryFailed? || target.values == [] then 0.0
      else if !AllHashable(target.values) then 0.0
      else
        var t := NonNullSet(target.values);
        if t == {} then 0.0
        else
          var ratio := |s * t| as real / |s| as real;
          if ratio <= 1.0 then ratio else 1.0
  }

  /** A sample that yields a set of distinct non-null values. */
  predicate Usable(sample: Sample) {
    sample.Docs? && AllHashable(sample.values) && NonNullSet(sample.values) != {}
  }

  lemma {:induction false} SubsetCardinality<T>(a: set<T>, b: set<T>)
    requires a <= b
    ensures |a| <= |b|
    decreases |a|
  {
    if a != {} {
      var x :| x in a;
      SubsetCardinality(a - {x}, b - {x});
    }
  }

  lemma ProperSubsetCardinality<T>(a: set<T>, b: set<T>)
    requires a <= b && a != b
    ensures |a| < |b|
  {
    assert !(b <= a);
    var y :| y in b && y !in a;
    SubsetCardinality(a, b - {y});
  }

  /**
   * The overlap is 0.0 unless both samples are usable, and otherwise
   * exactly |S ∩ T| / |S|: the cap at 1.0 never applies, because the
   * ratio is divided by the source set.
   */
  lemma OverlapRatio(source: Sample, target: Sample)
    ensures !(Usable(source) && Usable(target)) ==> ValueOverlap(source, target) == 0.0
    ensures Usable(source) && Usable(target) ==>
      var s := NonNullSet(source.values);
      var t := NonNullSet(target.values);
      ValueOverlap(source, target) * (|s| as real) == |s * t| as real
  {
    if source.Docs? && source.values == [] {
      assert NonNullSet(source.values) == {};
    }
    if target.Docs? && target.values == [] {
      assert NonNullSet(target.values) == {};
    }
    if Usable(source) && Usable(target) {
      var s := NonNullSet(source.values);
      var t := NonNullSet(target.values);
      SubsetCardinality(s * t, s);
    }
  }

  /** Full overlap means every distinct source value occurs in the target. */
  lemma OverlapFull(source: Sample, target: Sample)
    requires Usable(source) && Usable(target)
    ensures ValueOverlap(source, target) == 1.0 <==> NonNullSet(source.values) <= NonNullSet(target.values)
  {
    var s := NonNullSet(source.values);
    var t := NonNullSet(target.values);
    OverlapRatio(source, target);
    var r := ValueOverlap(source, target);
    if s <= t {
      assert s * t == s;
    } else {
      ProperSubsetCardinality(s * t, s);
      assert r * (|s| as real) < |s| as real;
    }
  }

  /** Any shared value gives a positive overlap, and only a shared value does. */
  lemma OverlapPositive(source: Sample, target: Sample)
    requires Usable(source) && Usable(target)
    ensures ValueOverlap(source, target) > 0.0 <==> NonNullSet(source.values) * NonNullSet(target.values) != {}
  {
    OverlapRatio(source, target);
  }

  // ---------------------------------------------------------------------
  // The confidence formula
  // ---------------------------------------------------------------------

  /** `min(max(x, 0.0), 1.0)` */
  function Clamp(x: real): (r: Confidence)
    ensures 0.0 <= x <= 1.0 ==> r == x
  {
    var low := if x >= 0.0 then x else 0.0;
    if low <= 1.0 then low else 1.0
  }

  /**
   * `calculate_relationship_confidence`: 0.0 without samples; the match
   * ratio when the base confidence is 0.0; otherwise the mean of the base
   * confidence and the ratio; always clamped into [0, 1].
   */
  function CalculateRelationshipConfidence(matches: int, totalSamples: int, baseConfidence: real): (r: Confidence)
    ensures totalSamples == 0 ==> r == 0.0
  {
    if totalSamples == 0 then 0.0
    else
      var ratio := matches as real / totalSamples as real;
      if baseConfidence == 0.0 then Clamp(ratio)
      else Clamp(baseConfidence * 0.5 + ratio * 0.5)
  }

  /** For counts and a base confidence that make sense, the clamp never changes the value. */
  lemma ConfidenceUnclamped(matches: int, totalSamples: int, baseConfidence: real)
    requires 0 <= matches <= totalSamples && 0 < totalSamples
    requires 0.0 <= baseConfidence <= 1.0
    ensures var ratio := matches as real / totalSamples as real;
      CalculateRelationshipConfidence(matches, totalSamples, baseConfidence)
      == if baseConfidence == 0.0 then ratio else (baseConfidence + ratio) / 2.0
  {
    var ratio := matches as real / totalSamples as real;
    assert ratio <= 1.0 by {
      assert ratio * (totalSamples as real) == matches as real;
    }
  }

  /** More matches never lower the confidence. */
  lemma ConfidenceMonotone(m1: int, m2: int, totalSamples: int, baseConfidence: real)
    requires m1 <= m2 && 0 < totalSamples
    ensures CalculateRelationshipConfidence(m1, totalSamples, baseConfidence)
         <= CalculateRelationshipConfidence(m2, totalSamples, baseConfidence)
  {
    assert m1 as real / totalSamples as real <= m2 as real / totalSamples as real;
  }

  // ---------------------------------------------------------------------
  // Combining the passes
  // ---------------------------------------------------------------------

  /** The database's answer to `detect_value_overlap_relationships(sc, sf, tc, tf, db)`. */
  type Overlap = PairKey -> Confidence

  /** Field names compared across collections by the third pass. */
  const CommonFields: seq<string> := ["city", "location", "category", "name", "email", "status"]

  predicate Thresholded(rs: seq<FieldRelationship>, minConfidence: real) {
    forall e :: e in rs ==> e.confidenceScore >= minConfidence
  }

  /** First pass, one edge: kept when its key is new and it meets the threshold. */
  function KeepIdEdge(out: seq<FieldRelationship>, r: FieldRelationship, minConfidence: real): seq<FieldRelationship> {
    if Key(r) !in Keys(out) && r.confidenceScore >= minConfidence then out + [r] else out
  }

  function KeepIdStep(minConfidence: real): (seq<FieldRelationship>, FieldRelationship) -> seq<FieldRelationship> {
    (out: seq<FieldRelationship>, r: FieldRelationship) => KeepIdEdge(out, r, minConfidence)
  }

  /** The confidence after value checking: the mean of the pattern confidence and the overlap. */
  function Rescored(r: FieldRelationship, overlapConfidence: Confidence): FieldRelationship {
    r.(confidenceScore := (r.confidenceScore + overlapConfidence) / 2.0)
  }

  /**
   * Second pass, one edge: a new key is confirmed by more than 20% value
   * overlap, rescored, and kept when the new score meets the threshold.
   */
  function KeepNameEdge(out: seq<FieldRelationship>, r: FieldRelationship, overlap: Overlap, minConfidence: real)
    : seq<FieldRelationship>
  {
    if Key(r) in Keys(out) then out
    else
      var o := overlap(Key(r));
      if o > 0.2 && Rescored(r, o).confidenceScore >= minConfidence then out + [Rescored(r, o)] else out
  }

  function KeepNameStep(overlap: Overlap, minConfidence: real): (seq<FieldRelationship>, FieldRelationship) -> seq<FieldRelationship> {
    (out: seq<FieldRelationship>, r: FieldRelationship) => KeepNameEdge(out, r, overlap, minConfidence)
  }

  /** A pair considered by the third pass: (source collection, common field, target collection). */
  type Candidate = (string, string, string)

  function CandidateKey(c: Candidate): PairKey {
    (c.0, c.1, c.2, c.1)
  }

  function ReverseKey(c: Candidate): PairKey {
    (c.2, c.1, c.0, c.1)
  }

  function CommonFieldEdge(c: Candidate, o: Confidence): FieldRelationship {
    FieldRelationship(c.0, c.1, c.2, c.1, ManyToMany, o)
  }

  /**
   * Third pass, one pair: skipped when either direction is already linked;
   * otherwise a many-to-many edge scored by the overlap, kept when the
   * overlap meets the threshold.
   */
  function KeepCommonField(out: seq<FieldRelationship>, c: Candidate, overlap: Overlap, minConfidence: real)
    : seq<FieldRelationship>
  {
    if CandidateKey(c) in Keys(out) || ReverseKey(c) in Keys(out) then out
    else if overlap(CandidateKey(c)) >= minConfidence then out + [CommonFieldEdge(c, overlap(CandidateKey(c)))]
    else out
  }

  function KeepCommonStep(overlap: Overlap, minConfidence: real): (seq<FieldRelationship>, Candidate) -> seq<FieldRelationship> {
    (out: seq<FieldRelationship>, c: Candidate) => KeepCommonField(out, c, overlap, minConfidence)
  }

  function HasFieldStep(field: string): ((string, seq<string>)) -> seq<string> {
    (entry: (string, seq<string>)) => if field in entry.1 then [entry.0] else []
  }

  /** `[coll for coll, fields in schema_info.items() if field in fields]` */
  function CollectionsWithField(shape: Shape, field: string): seq<string> {
    ConcatMap(shape, HasFieldStep(field))
  }

  function PairStep(source: string, field: string): string -> seq<Candidate> {
    (target: string) => [(source, field, target)]
  }

  /** The pairs `(colls[a], colls[b])` with `a < n` and `a < b`, row by row. */
  function PairsUpTo(colls: seq<string>, field: string, n: nat): seq<Candidate>
    requires n <= |colls|
    decreases n
  {
    if n == 0 then [] else PairsUpTo(colls, field, n - 1) + ConcatMap(colls[n..], PairStep(colls[n - 1], field))
  }

  /** The pairs of collections sharing `field`, when at least two share it. */
  function FieldCandidates(shape: Shape, field: string): seq<Candidate> {
    var colls := CollectionsWithField(shape, field);
    if |colls| >= 2 then PairsUpTo(colls, field, |colls|) else []
  }

  function CandidatesStep(shape: Shape): string -> seq<Candidate> {
    (field: string) => FieldCandidates(shape, field)
  }

  /** Every pair the third pass considers, in the order it considers them. */
  function CommonFieldCandidates(shape: Shape): seq<Candidate> {
    ConcatMap(CommonFields, CandidatesStep(shape))
  }

  function IdPass(shape: Shape, minConfidence: real): seq<FieldRelationship> {
    FoldLeft([], IdEdges(shape), KeepIdStep(minConfidence))
  }

  function NamePass(shape: Shape, overlap: Overlap, minConfidence: real): seq<FieldRelationship> {
    FoldLeft(IdPass(shape, minConfidence), NameEdges(shape), KeepNameStep(overlap, minConfidence))
  }

  /** The result of `detect_all_relationships`: the three passes, each extending the list of the one before. */
  function DetectAll(shape: Shape, overlap: Overlap, minConfidence: real): seq<FieldRelationship> {
    FoldLeft(NamePass(shape, overlap, minConfidence), CommonFieldCandidates(shape), KeepCommonStep(overlap, minConfidence))
  }

  // ----- The third pass's candidates --------------------------------------

  lemma CollectionsWithFieldIff(shape: Shape, field: string, c: string)
    ensures c in CollectionsWithField(shape, field) <==> exists i :: 0 <= i < |shape| && shape[i].0 == c && field in shape[i].1
  {
    ConcatMapMember(shape, HasFieldStep(field), c);
  }

  lemma {:induction false} PairRow(row: seq<string>, source: string, field: string, c: Candidate)
    ensures |ConcatMap(row, PairStep(source, field))| == |row|
    ensures c in ConcatMap(row, PairStep(source, field)) <==> c.0 == source && c.1 == field && c.2 in row
    decreases |row|
  {
    if row != [] {
      PairRow(row[..|row| - 1], source, field, c);
      assert row == row[..|row| - 1] + [row[|row| - 1]];
    }
  }

  /** There are exactly as many candidates as unordered pairs of positions with the first below `n`. */
  lemma {:induction false} PairsUpToLength(colls: seq<string>, field: string, n: nat)
    requires n <= |colls|
    ensures 2 * |PairsUpTo(colls, field, n)| == n * (2 * |colls| - n - 1)
    decreases n
  {
    if n > 0 {
      PairsUpToLength(colls, field, n - 1);
      PairRow(colls[n..], colls[n - 1], field, ("", "", ""));
      var m := |PairsUpTo(colls, field, n - 1)|;
      var l := |colls|;
      assert 2 * |PairsUpTo(colls, field, n)| == 2 * m + 2 * (l - n);
      assert (n - 1) * (2 * l - n) + 2 * (l - n) == n * (2 * l - n - 1);
    }
  }

  /** The candidates for one field are the pairs (colls[a], colls[b]) with a < n and a < b. */
  lemma {:induction false} PairsUpToIff(colls: seq<string>, field: string, n: nat, c: Candidate)
    requires n <= |colls|
    ensures c in PairsUpTo(colls, field, n)
      <==> c.1 == field && exists a, b :: 0 <= a < n && a < b < |colls| && colls[a] == c.0 && colls[b] == c.2
    decreases n
  {
    if n > 0 {
      PairsUpToIff(colls, field, n - 1, c);
      var row := colls[n..];
      PairRow(row, colls[n - 1], field, c);
      assert c in PairsUpTo(colls, field, n)
        <==> c in PairsUpTo(colls, field, n - 1) || (c.0 == colls[n - 1] && c.1 == field && c.2 in row);
      if c.1 == field && c.0 == colls[n - 1] && c.2 in row {
        var k :| 0 <= k < |row| && row[k] == c.2;
        assert colls[n + k] == c.2;
      }
      if c.1 == field {
        forall a, b | 0 <= a < n && a < b < |colls| && colls[a] == c.0 && colls[b] == c.2
          ensures c in PairsUpTo(colls, field, n)
        {
          if a == n - 1 {
            assert row[b - n] == c.2;
          }
        }
      }
    }
  }

  lemma FieldCandidatesIff(shape: Shape, field: string, c: Candidate)
    ensures var colls := CollectionsWithField(shape, field);
      c in FieldCandidates(shape, field)
      <==> c.1 == field && exists a, b :: 0 <= a < b < |colls| && colls[a] == c.0 && colls[b] == c.2
  {
    var colls := CollectionsWithField(shape, field);
    PairsUpToIff(colls, field, |colls|, c);
  }

  // ----- What each pass keeps ---------------------------------------------

  /**
   * The first pass only appends, keeps keys unique and scores at or above
   * the threshold, appends only edges it was given, and leaves the key of
   * every qualifying edge present.
   */
  lemma {:induction false} KeepIdFold(a: seq<FieldRelationship>, xs: seq<FieldRelationship>, minConfidence: real)
    requires UniqueKeys(a) && Thresholded(a, minConfidence)
    ensures var out := FoldLeft(a, xs, KeepIdStep(minConfidence));
      a <= out && UniqueKeys(out) && Thresholded(out, minConfidence)
      && (forall k :: |a| <= k < |out| ==> out[k] in xs)
      && (forall r :: r in xs && r.confidenceScore >= minConfidence ==> Key(r) in Keys(out))
    decreases |xs|
  {
    if xs != [] {
      var init := xs[..|xs| - 1];
      var r := xs[|xs| - 1];
      assert xs == init + [r];
      var f := KeepIdStep(minConfidence);
      KeepIdFold(a, init, minConfidence);
      var b := FoldLeft(a, init, f);
      var out := FoldLeft(a, xs, f);
      assert out == KeepIdEdge(b, r, minConfidence);
      if Key(r) !in Keys(b) && r.confidenceScore >= minConfidence {
        UniqueKeysAppend(b, r);
        KeysAppend(b, r);
      }
      KeysPrefix(b, out);
      forall k | |a| <= k < |out|
        ensures out[k] in xs
      {
        if k < |b| {
          assert out[k] == b[k];
        }
      }
    }
  }

  /** A second-pass entry: an edge of `xs` confirmed by more than 20% overlap and rescored. */
  predicate FromNameEdge(e: FieldRelationship, xs: seq<FieldRelationship>, overlap: Overlap) {
    exists r :: r in xs && overlap(Key(r)) > 0.2 && e == Rescored(r, overlap(Key(r)))
  }

  lemma {:induction false} KeepNameFold(a: seq<FieldRelationship>, xs: seq<FieldRelationship>, overlap: Overlap, minConfidence: real)
    requires UniqueKeys(a) && Thresholded(a, minConfidence)
    ensures var out := FoldLeft(a, xs, KeepNameStep(overlap, minConfidence));
      a <= out && UniqueKeys(out) && Thresholded(out, minConfidence)
      && (forall k :: |a| <= k < |out| ==> FromNameEdge(out[k], xs, overlap))
      && (forall r :: r in xs && overlap(Key(r)) > 0.2 && Rescored(r, overlap(Key(r))).confidenceScore >= minConfidence
            ==> Key(r) in Keys(out))
    decreases |xs|
  {
    if xs != [] {
      var init := xs[..|xs| - 1];
      var r := xs[|xs| - 1];
      assert xs == init + [r];
      var f := KeepNameStep(overlap, minConfidence);
      KeepNameFold(a, init, overlap, minConfidence);
      var b := FoldLeft(a, init, f);
      var out := FoldLeft(a, xs, f);
      assert out == KeepNameEdge(b, r, overlap, minConfidence);
      var e := Rescored(r, overlap(Key(r)));
      assert Key(e) == Key(r);
      if out != b {
        UniqueKeysAppend(b, e);
        KeysAppend(b, e);
      }
      KeysPrefix(b, out);
      forall k | |a| <= k < |out|
        ensures FromNameEdge(out[k], xs, overlap)
      {
        if k < |b| {
          assert out[k] == b[k];
          var r' :| r' in init && overlap(Key(r')) > 0.2 && b[k] == Rescored(r', overlap(Key(r')));
          assert r' in xs;
        } else {
          assert out[k] == e;
        }
      }
    }
  }

  /** A third-pass entry: the many-to-many edge of a candidate of `xs`, scored by its overlap. */
  predicate FromCandidate(e: FieldRelationship, xs: seq<Candidate>, overlap: Overlap) {
    exists c :: c in xs && e == CommonFieldEdge(c, overlap(CandidateKey(c)))
  }

  lemma {:induction false} KeepCommonFold(a: seq<FieldRelationship>, xs: seq<Candidate>, overlap: Overlap, minConfidence: real)
    requires UniqueKeys(a) && Thresholded(a, minConfidence)
    ensures var out := FoldLeft(a, xs, KeepCommonStep(overlap, minConfidence));
      a <= out && UniqueKeys(out) && Thresholded(out, minConfidence)
      && (forall k :: |a| <= k < |out| ==> FromCandidate(out[k], xs, overlap))
      && (forall c :: c in xs && overlap(CandidateKey(c)) >= minConfidence
            ==> CandidateKey(c) in Keys(out) || ReverseKey(c) in Keys(out))
    decreases |xs|
  {
    if xs != [] {
      var init := xs[..|xs| - 1];
      var c := xs[|xs| - 1];
      assert xs == init + [c];
      var f := KeepCommonStep(overlap, minConfidence);
      KeepCommonFold(a, init, overlap, minConfidence);
      var b := FoldLeft(a, init, f);
      var out := FoldLeft(a, xs, f);
      assert out == KeepCommonField(b, c, overlap, minConfidence);
      var e := CommonFieldEdge(c, overlap(CandidateKey(c)));
      assert Key(e) == CandidateKey(c);
      if out != b {
        UniqueKeysAppend(b, e);
        KeysAppend(b, e);
      }
      KeysPrefix(b, out);
      forall k | |a| <= k < |out|
        ensures FromCandidate(out[k], xs, overlap)
      {
        if k < |b| {
          assert out[k] == b[k];
          var c' :| c' in init && b[k] == CommonFieldEdge(c', overlap(CandidateKey(c')));
          assert c' in xs;
        } else {
          assert out[k] == e;
        }
      }
    }
  }

  // ----- Properties of the combined result ----------------------------------

  /** A second-pass entry, stated over the schema: a name-pass edge rescored by its overlap. */
  predicate IsRescoredNameEdge(shape: Shape, overlap: Overlap, e: FieldRelationship) {
    IsNamePassEdge(shape, e.(confidenceScore := 0.75))
    && overlap(Key(e)) > 0.2
    && e.confidenceScore == (0.75 + overlap(Key(e))) / 2.0
  }

  /** A third-pass entry, stated over the schema. */
  predicate IsCommonFieldEdge(shape: Shape, overlap: Overlap, e: FieldRelationship) {
    e.sourceField in CommonFields && e.targetField == e.sourceField
    && (e.sourceCollection, e.sourceField, e.targetCollection) in FieldCandidates(shape, e.sourceField)
    && e.relationshipType == ManyToMany && e.confidenceScore == overlap(Key(e))
  }

  /** No two entries share a key, and every entry meets the threshold. */
  lemma DetectAllUnique(shape: Shape, overlap: Overlap, minConfidence: real)
    ensures UniqueKeys(DetectAll(shape, overlap, minConfidence))
    ensures Thresholded(DetectAll(shape, overlap, minConfidence), minConfidence)
  {
    KeepIdFold([], IdEdges(shape), minConfidence);
    KeepNameFold(IdPass(shape, minConfidence), NameEdges(shape), overlap, minConfidence);
    KeepCommonFold(NamePass(shape, overlap, minConfidence), CommonFieldCandidates(shape), overlap, minConfidence);
  }

  /** The lists after the first and the second pass are prefixes of the result. */
  lemma PassPrefixes(shape: Shape, overlap: Overlap, minConfidence: real)
    ensures IdPass(shape, minConfidence) <= NamePass(shape, overlap, minConfidence)
    ensures NamePass(shape, overlap, minConfidence) <= DetectAll(shape, overlap, minConfidence)
    ensures forall k :: 0 <= k < |IdPass(shape, minConfidence)| ==> IdPass(shape, minConfidence)[k] in IdEdges(shape)
  {
    KeepIdFold([], IdEdges(shape), minConfidence);
    KeepNameFold(IdPass(shape, minConfidence), NameEdges(shape), overlap, minConfidence);
    KeepCommonFold(NamePass(shape, overlap, minConfidence), CommonFieldCandidates(shape), overlap, minConfidence);
  }

  lemma NameSegment(shape: Shape, overlap: Overlap, minConfidence: real)
    ensures var p1 := IdPass(shape, minConfidence);
      var p2 := NamePass(shape, overlap, minConfidence);
      forall k :: |p1| <= k < |p2| ==> IsRescoredNameEdge(shape, overlap, p2[k])
  {
    var p1 := IdPass(shape, minConfidence);
    var p2 := NamePass(shape, overlap, minConfidence);
    KeepIdFold([], IdEdges(shape), minConfidence);
    KeepNameFold(p1, NameEdges(shape), overlap, minConfidence);
    forall k | |p1| <= k < |p2|
      ensures IsRescoredNameEdge(shape, overlap, p2[k])
    {
      assert FromNameEdge(p2[k], NameEdges(shape), overlap);
      var r :| r in NameEdges(shape) && overlap(Key(r)) > 0.2 && p2[k] == Rescored(r, overlap(Key(r)));
      RescoredNameEdge(shape, overlap, r);
    }
  }

  /** A name-pass edge confirmed by the overlap and rescored is a rescored name edge. */
  lemma RescoredNameEdge(shape: Shape, overlap: Overlap, r: FieldRelationship)
    requires r in NameEdges(shape) && overlap(Key(r)) > 0.2
    ensures IsRescoredNameEdge(shape, overlap, Rescored(r, overlap(Key(r))))
  {
    NameEdgesIff(shape, r);
    var e := Rescored(r, overlap(Key(r)));
    assert Key(e) == Key(r);
    assert e.(confidenceScore := 0.75) == r;
  }

  lemma CommonSegment(shape: Shape, overlap: Overlap, minConfidence: real)
    ensures var p2 := NamePass(shape, overlap, minConfidence);
      var out := DetectAll(shape, overlap, minConfidence);
      forall k :: |p2| <= k < |out| ==> IsCommonFieldEdge(shape, overlap, out[k])
  {
    var p2 := NamePass(shape, overlap, minConfidence);
    var out := DetectAll(shape, overlap, minConfidence);
    KeepIdFold([], IdEdges(shape), minConfidence);
    KeepNameFold(IdPass(shape, minConfidence), NameEdges(shape), overlap, minConfidence);
    KeepCommonFold(p2, CommonFieldCandidates(shape), overlap, minConfidence);
    forall k | |p2| <= k < |out|
      ensures IsCommonFieldEdge(shape, overlap, out[k])
    {
      assert FromCandidate(out[k], CommonFieldCandidates(shape), overlap);
      var c :| c in CommonFieldCandidates(shape) && out[k] == CommonFieldEdge(c, overlap(CandidateKey(c)));
      CandidateEdge(shape, overlap, c);
    }
  }

  /** The edge made from a third-pass candidate is a common-field edge. */
  lemma CandidateEdge(shape: Shape, overlap: Overlap, c: Candidate)
    requires c in CommonFieldCandidates(shape)
    ensures IsCommonFieldEdge(shape, overlap, CommonFieldEdge(c, overlap(CandidateKey(c))))
  {
    ConcatMapMember(CommonFields, CandidatesStep(shape), c);
    var j :| 0 <= j < |CommonFields| && c in FieldCandidates(shape, CommonFields[j]);
    FieldCandidatesIff(shape, CommonFields[j], c);
  }

  /**
   * The entries come in pass order: the list after the first pass holds
   * `_id`-pass edges, the second pass appends rescored name-pass edges, and
   * the third appends many-to-many common-field edges.
   */
  lemma DetectAllOrder(shape: Shape, overlap: Overlap, minConfidence: real)
    ensures var p1 := IdPass(shape, minConfidence);
      var p2 := NamePass(shape, overlap, minConfidence);
      var out := DetectAll(shape, overlap, minConfidence);
      p1 <= p2 <= out
      && (forall k :: 0 <= k < |p1| ==> IsIdPassEdge(shape, out[k]))
      && (forall k :: |p1| <= k < |p2| ==> IsRescoredNameEdge(shape, overlap, out[k]))
      && (forall k :: |p2| <= k < |out| ==> IsCommonFieldEdge(shape, overlap, out[k]))
  {
    var p1 := IdPass(shape, minConfidence);
    var p2 := NamePass(shape, overlap, minConfidence);
    var out := DetectAll(shape, overlap, minConfidence);
    PassPrefixes(shape, overlap, minConfidence);
    NameSegment(shape, overlap, minConfidence);
    CommonSegment(shape, overlap, minConfidence);
    forall k | 0 <= k < |p1|
      ensures IsIdPassEdge(shape, out[k])
    {
      assert out[k] == p1[k];
      IdEdgesIff(shape, p1[k]);
    }
    forall k | |p1| <= k < |p2|
      ensures IsRescoredNameEdge(shape, overlap, out[k])
    {
      assert out[k] == p2[k];
    }
  }

  /** A schema and its shape list the same collections. */
  lemma ShapeOfKeys(schema: Schema, c: string)
    ensures HasKey(ShapeOf(schema), c) <==> HasKey(schema, c)
  {
    var shape := ShapeOf(schema);
    assert forall i :: 0 <= i < |schema| ==> shape[i].0 == schema[i].0;
  }

  /** Every detected relationship connects two collections of the schema. */
  lemma DetectAllCollections(shape: Shape, overlap: Overlap, minConfidence: real, e: FieldRelationship)
    requires e in DetectAll(shape, overlap, minConfidence)
    ensures HasKey(shape, e.sourceCollection) && HasKey(shape, e.targetCollection)
  {
    var out := DetectAll(shape, overlap, minConfidence);
    DetectAllOrder(shape, overlap, minConfidence);
    var k :| 0 <= k < |out| && out[k] == e;
    if k < |IdPass(shape, minConfidence)| {
      var i :| 0 <= i < |shape| && shape[i].0 == e.sourceCollection && e.sourceField in shape[i].1
        && (IsIdEdge(shape, e.sourceCollection, e.sourceField, e)
            || IsCollectionNameEdge(shape, e.sourceCollection, e.sourceField, e));
      KeyAtIndex(shape, i);
    } else if k < |NamePass(shape, overlap, minConfidence)| {
      var e' := e.(confidenceScore := 0.75);
      var i :| 0 <= i < |shape| && shape[i].0 == e'.sourceCollection && e'.sourceField in shape[i].1
        && IsNameEdge(shape, e'.sourceCollection, e'.sourceField, e');
      KeyAtIndex(shape, i);
    } else {
      var colls := CollectionsWithField(shape, e.sourceField);
      FieldCandidatesIff(shape, e.sourceField, (e.sourceCollection, e.sourceField, e.targetCollection));
      var a, b :| 0 <= a < b < |colls| && colls[a] == e.sourceCollection && colls[b] == e.targetCollection;
      CollectionsWithFieldIff(shape, e.sourceField, e.sourceCollection);
      CollectionsWithFieldIff(shape, e.sourceField, e.targetCollection);
      var i :| 0 <= i < |shape| && shape[i].0 == e.sourceCollection && e.sourceField in shape[i].1;
      var j :| 0 <= j < |shape| && shape[j].0 == e.targetCollection && e.sourceField in shape[j].1;
      KeyAtIndex(shape, i);
      KeyAtIndex(shape, j);
    }
  }

  /**
   * Nothing qualifying is lost: every `_id`-pass edge meeting the
   * threshold, every name-pass edge confirmed by overlap, and every
   * common-field pair whose overlap meets the threshold has its key (for a
   * pair: its key or the reverse key) in the result.
   */
  lemma DetectAllComplete(shape: Shape, overlap: Overlap, minConfidence: real)
    ensures var out := DetectAll(shape, overlap, minConfidence);
      (forall r :: r in IdEdges(shape) && r.confidenceScore >= minConfidence ==> Key(r) in Keys(out))
      && (forall r :: r in NameEdges(shape) && overlap(Key(r)) > 0.2 && (0.75 + overlap(Key(r))) / 2.0 >= minConfidence
            ==> Key(r) in Keys(out))
      && (forall c :: c in CommonFieldCandidates(shape) && overlap(CandidateKey(c)) >= minConfidence
            ==> CandidateKey(c) in Keys(out) || ReverseKey(c) in Keys(out))
  {
    var p1 := IdPass(shape, minConfidence);
    var p2 := NamePass(shape, overlap, minConfidence);
    var out := DetectAll(shape, overlap, minConfidence);
    KeepIdFold([], IdEdges(shape), minConfidence);
    KeepNameFold(p1, NameEdges(shape), overlap, minConfidence);
    KeepCommonFold(p2, CommonFieldCandidates(shape), overlap, minConfidence);
    KeysPrefix(p1, p2);
    KeysPrefix(p2, out);
    forall r | r in NameEdges(shape)
      ensures r.confidenceScore == 0.75
    {
      NameEdgesIff(shape, r);
    }
  }

  // ----- `detect_all_relationships` ------------------------------------------

  /** The inner pairwise loop: one collection with each later one. */
  method CommonFieldRow(source: string, later: seq<string>, field: string, overlap: Overlap, minConfidence: real,
                        rels0: seq<FieldRelationship>, seen0: set<PairKey>)
    returns (rels: seq<FieldRelationship>, seen: set<PairKey>)
    requires seen0 == Keys(rels0)
    ensures rels == FoldLeft(rels0, ConcatMap(later, PairStep(source, field)), KeepCommonStep(overlap, minConfidence))
    ensures seen == Keys(rels)
  {
    ghost var step := KeepCommonStep(overlap, minConfidence);
    rels, seen := rels0, seen0;
    for m := 0 to |later|
      invariant rels == FoldLeft(rels0, ConcatMap(later[..m], PairStep(source, field)), step)
      invariant seen == Keys(rels)
    {
      var target := later[m];
      ConcatMapPrefix(later, m, PairStep(source, field));
      FoldLeftSnoc(rels0, ConcatMap(later[..m], PairStep(source, field)), (source, field, target), step);
      var pairKey := (source, field, target, field);
      var reversePairKey := (target, field, source, field);
      if pairKey !in seen && reversePairKey !in seen {
        var overlapConfidence := overlap(pairKey);
        if overlapConfidence >= minConfidence {
          var rel := FieldRelationship(source, field, target, field, ManyToMany, overlapConfidence);
          KeysAppend(rels, rel);
          rels := rels + [rel];
          seen := seen + {pairKey};
        }
      }
    }
    assert later[..|later|] == later;
  }

  /**
   * The pairwise loops of the third pass for one common field: each
   * collection with each later one, skipping pairs linked in either
   * direction.
   */
  method CommonFieldPairs(colls: seq<string>, field: string, overlap: Overlap, minConfidence: real,
                          rels0: seq<FieldRelationship>, seen0: set<PairKey>)
    returns (rels: seq<FieldRelationship>, seen: set<PairKey>)
    requires seen0 == Keys(rels0)
    ensures rels == FoldLeft(rels0, PairsUpTo(colls, field, |colls|), KeepCommonStep(overlap, minConfidence))
    ensures seen == Keys(rels)
  {
    ghost var step := KeepCommonStep(overlap, minConfidence);
    rels, seen := rels0, seen0;
    for i := 0 to |colls|
      invariant rels == FoldLeft(rels0, PairsUpTo(colls, field, i), step)
      invariant seen == Keys(rels)
    {
      FoldLeftConcat(rels0, PairsUpTo(colls, field, i), ConcatMap(colls[i + 1..], PairStep(colls[i], field)), step);
      rels, seen := CommonFieldRow(colls[i], colls[i + 1..], field, overlap, minConfidence, rels, seen);
    }
  }

  /** The first loop: keep each `_id`-pass edge whose key is unseen and whose score meets the threshold. */
  method KeepIdLoop(idRelationships: seq<FieldRelationship>, minConfidence: real)
    returns (rels: seq<FieldRelationship>, seen: set<PairKey>)
    ensures rels == FoldLeft([], idRelationships, KeepIdStep(minConfidence))
    ensures seen == Keys(rels)
  {
    rels := [];
    seen := {};
    var n := 0;
    while n < |idRelationships|
      invariant n <= |idRelationships|
      invariant rels == FoldLeft([], idRelationships[..n], KeepIdStep(minConfidence))
      invariant seen == Keys(rels)
    {
      var rel := idRelationships[n];
      FoldLeftPrefix([], idRelationships, n, KeepIdStep(minConfidence));
      var pairKey := Key(rel);
      if pairKey !in seen && rel.confidenceScore >= minConfidence {
        KeysAppend(rels, rel);
        rels := rels + [rel];
        seen := seen + {pairKey};
      }
      n := n + 1;
    }
    assert idRelationships[..|idRelationships|] == idRelationships;
  }

  /**
   * The second loop: an unseen name-pass edge is confirmed by more than 20%
   * overlap, its score is overwritten by the mean with the overlap, and it
   * is kept when that meets the threshold.
   */
  method KeepNameLoop(rels0: seq<FieldRelationship>, seen0: set<PairKey>, nameRelationships: seq<FieldRelationship>,
                      overlap: Overlap, minConfidence: real)
    returns (rels: seq<FieldRelationship>, seen: set<PairKey>)
    requires seen0 == Keys(rels0)
    ensures rels == FoldLeft(rels0, nameRelationships, KeepNameStep(overlap, minConfidence))
    ensures seen == Keys(rels)
  {
    rels, seen := rels0, seen0;
    var n := 0;
    while n < |nameRelationships|
      invariant n <= |nameRelationships|
      invariant rels == FoldLeft(rels0, nameRelationships[..n], KeepNameStep(overlap, minConfidence))
      invariant seen == Keys(rels)
    {
      var rel := nameRelationships[n];
      FoldLeftPrefix(rels0, nameRelationships, n, KeepNameStep(overlap, minConfidence));
      ghost var next := KeepNameEdge(rels, rel, overlap, minConfidence);
      var pairKey := Key(rel);
      if pairKey !in seen {
        var overlapConfidence := overlap(pairKey);
        if overlapConfidence > 0.2 {
          ghost var original := rel;
          rel := rel.(confidenceScore := (rel.confidenceScore + overlapConfidence) / 2.0);
          assert rel == Rescored(original, overlapConfidence);
          if rel.confidenceScore >= minConfidence {
            KeysAppend(rels, rel);
            rels := rels + [rel];
            seen := seen + {pairKey};
          }
        }
      }
      assert rels == next;
      n := n + 1;
    }
    assert nameRelationships[..|nameRelationships|] == nameRelationships;
  }

  /** The third loop: for each common field shared by two or more collections, the pairwise loops. */
  method KeepCommonLoop(schema: Schema, rels0: seq<FieldRelationship>, seen0: set<PairKey>,
                        overlap: Overlap, minConfidence: real)
    returns (rels: seq<FieldRelationship>, seen: set<PairKey>)
    requires seen0 == Keys(rels0)
    ensures rels == FoldLeft(rels0, CommonFieldCandidates(ShapeOf(schema)), KeepCommonStep(overlap, minConfidence))
    ensures seen == Keys(rels)
  {
    var shape := ShapeOf(schema);
    rels, seen := rels0, seen0;
    ghost var step := KeepCommonStep(overlap, minConfidence);
    ghost var done: seq<Candidate> := [];
    var a := 0;
    while a < |CommonFields|
      invariant a <= |CommonFields|
      invariant done == ConcatMap(CommonFields[..a], CandidatesStep(shape))
      invariant rels == FoldLeft(rels0, done, step)
      invariant seen == Keys(rels)
    {
      var commonField := CommonFields[a];
      var collectionsWithField := CollectionsWithField(shape, commonField);
      ConcatMapPrefix(CommonFields, a, CandidatesStep(shape));
      ghost var candidates := FieldCandidates(shape, commonField);
      if |collectionsWithField| >= 2 {
        rels, seen := CommonFieldPairs(collectionsWithField, commonField, overlap, minConfidence, rels, seen);
        assert candidates == PairsUpTo(collectionsWithField, commonField, |collectionsWithField|);
      } else {
        assert candidates == [];
      }
      FoldLeftConcat(rels0, done, candidates, step);
      done := done + candidates;
      a := a + 1;
    }
    assert CommonFields[..|CommonFields|] == CommonFields;
  }

  /**
   * `detect_all_relationships`: the `_id` pass, then the name pass
   * confirmed by value overlap, then the common-field pass, with a set of
   * seen keys shared by all three.
   */
  method DetectAllRelationships(schema: Schema, overlap: Overlap, minConfidence: real)
    returns (rels: seq<FieldRelationship>)
    ensures rels == DetectAll(ShapeOf(schema), overlap, minConfidence)
    ensures UniqueKeys(rels)
    ensures forall e :: e in rels ==> e.confidenceScore >= minConfidence
  {
    var seen: set<PairKey>;
    var idRelationships := DetectIdFieldRelationships(schema);
    rels, seen := KeepIdLoop(idRelationships, minConfidence);
    var nameRelationships := DetectNameBasedRelationships(schema);
    rels, seen := KeepNameLoop(rels, seen, nameRelationships, overlap, minConfidence);
    rels, seen := KeepCommonLoop(schema, rels, seen, overlap, minConfidence);
    DetectAllUnique(ShapeOf(schema), overlap, minConfidence);
  }
}
