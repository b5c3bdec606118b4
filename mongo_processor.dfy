/**
 * The database-facing layer: ObjectId stripping of returned documents, the
 * validation gate in front of `find` and `aggregate`, and the schema report
 * (first-seen field typing, the `system.` skip and relationship detection
 * over the inferred field map).
 *
 * The database itself is abstract: a `Database` object records the requests
 * that reach it, its answers are parameters, and the schema report is built
 * from a snapshot of the collections' documents.
 */
module MongoProcessor {
  import opened Text
  import opened Values
  import opened Seqs
  import opened DataModels
  import opened MongoSecurity
  import opened RelationshipDetector

  // ---------------------------------------------------------------------
  // convert_objectids_to_strings
  // ---------------------------------------------------------------------

  /**
   * An ObjectId becomes its string form, dicts and lists are rebuilt with
   * converted values, and every other value (tuples included) is returned
   * as it is.
   */
  function ConvertObjectIds(v: Value): Value
    decreases v
  {
    match v
    case Oid(hex) => Str(hex)
    case Obj(fs) => Obj(seq(|fs|, i requires 0 <= i < |fs| => (fs[i].0, ConvertObjectIds(fs[i].1))))
    case Arr(es) => Arr(seq(|es|, i requires 0 <= i < |es| => ConvertObjectIds(es[i])))
    case _ => v
  }

  /** A document after conversion. */
  function ConvertDocument(doc: Document): Document {
    ConvertObjectIds(Obj(doc)).fields
  }

  /**
   * No ObjectId is reachable through dicts and lists. Tuples are not
   * looked into, because the conversion leaves them as they are.
   */
  predicate ObjectIdFree(v: Value) {
    match v
    case Oid(_) => false
    case Obj(fs) => forall i :: 0 <= i < |fs| ==> ObjectIdFree(fs[i].1)
    case Arr(es) => forall i :: 0 <= i < |es| ==> ObjectIdFree(es[i])
    case _ => true
  }

  /**
   * The conversion keeps the shape: an ObjectId becomes the string of its
   * hex text, a dict keeps its keys in order, a list keeps its length, and
   * anything else is unchanged.
   */
  lemma ConvertKeepsStructure(v: Value)
    ensures v.Oid? ==> ConvertObjectIds(v) == Str(v.hex)
    ensures v.Obj? ==> var r := ConvertObjectIds(v);
      r.Obj? && |r.fields| == |v.fields|
      && forall i :: 0 <= i < |v.fields| ==>
           r.fields[i].0 == v.fields[i].0 && r.fields[i].1 == ConvertObjectIds(v.fields[i].1)
    ensures v.Arr? ==> var r := ConvertObjectIds(v);
      r.Arr? && |r.elems| == |v.elems|
      && forall i :: 0 <= i < |v.elems| ==> r.elems[i] == ConvertObjectIds(v.elems[i])
    ensures !v.Oid? && !v.Obj? && !v.Arr? ==> ConvertObjectIds(v) == v
  {
  }

  /** After conversion no ObjectId is left outside tuples. */
  lemma {:induction false} ConvertRemovesObjectIds(v: Value)
    ensures ObjectIdFree(ConvertObjectIds(v))
    decreases v
  {
    match v {
      case Obj(fs) =>
        forall i | 0 <= i < |fs|
          ensures ObjectIdFree(ConvertObjectIds(fs[i].1))
        {
          ConvertRemovesObjectIds(fs[i].1);
        }
      case Arr(es) =>
        forall i | 0 <= i < |es|
          ensures ObjectIdFree(ConvertObjectIds(es[i]))
        {
          ConvertRemovesObjectIds(es[i]);
        }
      case _ =>
    }
  }

  /** A value without ObjectIds is returned unchanged (so are empty dicts and lists). */
  lemma {:induction false} ConvertFixesObjectIdFree(v: Value)
    requires ObjectIdFree(v)
    ensures ConvertObjectIds(v) == v
    decreases v
  {
    match v {
      case Obj(fs) =>
        forall i | 0 <= i < |fs|
          ensures ConvertObjectIds(fs[i].1) == fs[i].1
        {
          ConvertFixesObjectIdFree(fs[i].1);
        }
        assert ConvertObjectIds(v).fields == fs;
      case Arr(es) =>
        forall i | 0 <= i < |es|
          ensures ConvertObjectIds(es[i]) == es[i]
        {
          ConvertFixesObjectIdFree(es[i]);
        }
        assert ConvertObjectIds(v).elems == es;
      case _ =>
    }
  }

  /** Converting twice is converting once. */
  lemma ConvertIdempotent(v: Value)
    ensures ConvertObjectIds(ConvertObjectIds(v)) == ConvertObjectIds(v)
  {
    ConvertRemovesObjectIds(v);
    ConvertFixesObjectIdFree(ConvertObjectIds(v));
  }

  /** `convert(doc)[k]` is `convert(doc[k])`, and the same keys are present. */
  lemma ConvertDocumentLookup(doc: Document, k: string)
    ensures Lookup(ConvertDocument(doc), k) == MapOption(Lookup(doc, k), ConvertObjectIds)
  {
    assert ConvertDocument(doc) == MapValues(doc, ConvertObjectIds);
    LookupMapValues(doc, ConvertObjectIds, k);
  }

  /** The result loop of both execute functions: each returned document, converted. */
  method ConvertResults(cursor: seq<Document>) returns (results: seq<Document>)
    ensures |results| == |cursor|
    ensures forall k :: 0 <= k < |cursor| ==> results[k] == ConvertDocument(cursor[k])
  {
    results := [];
    for i := 0 to |cursor|
      invariant |results| == i
      invariant forall k :: 0 <= k < i ==> results[k] == ConvertDocument(cursor[k])
    {
      var doc := ConvertDocument(cursor[i]);
      results := results + [doc];
    }
  }

  /** Every document an execute function returns is free of ObjectIds. */
  lemma ResultsObjectIdFree(cursor: seq<Document>, results: seq<Document>)
    requires |results| == |cursor|
    requires forall k :: 0 <= k < |cursor| ==> results[k] == ConvertDocument(cursor[k])
    ensures forall k :: 0 <= k < |results| ==> ObjectIdFree(Obj(results[k]))
  {
    forall k | 0 <= k < |results|
      ensures ObjectIdFree(Obj(results[k]))
    {
      ConvertRemovesObjectIds(Obj(cursor[k]));
    }
  }

  // ---------------------------------------------------------------------
  // The validation gate of execute_mongodb_query / execute_aggregation_pipeline
  // ---------------------------------------------------------------------

  /** `None` becomes `{}`; any other filter is kept. */
  function EffectiveFilter(filter: Value): Value {
    if filter == Null then Obj([]) else filter
  }

  /**
   * The checks of `execute_mongodb_query`, in order: the collection name
   * always; the filter only when it is truthy, with operators allowed; the
   * projection and the sort only when truthy.
   */
  function QueryGate(collectionName: Value, filter: Value, projection: Value, sort: Value): Outcome {
    var c := CheckCollectionValue(collectionName);
    if c.Fail? then c
    else
      var f := EffectiveFilter(filter);
      var fq := if Truthy(f) then ValidateQueryStructure(f, true) else Pass;
      if fq.Fail? then fq
      else
        var p := if Truthy(projection) then Verdict(ValidateProjection(projection)) else Pass;
        if p.Fail? then p
        else if Truthy(sort) then Verdict(ValidateSortSpecification(sort))
        else Pass
  }

  /** The checks of `execute_aggregation_pipeline`: the collection name, then the whole pipeline. */
  function AggregationGate(collectionName: Value, pipeline: Value): Outcome {
    var c := CheckCollectionValue(collectionName);
    if c.Fail? then c else Verdict(ValidateAggregationPipeline(pipeline))
  }

  /**
   * A find request gets through exactly when the collection name is
   * accepted, a truthy filter is an accepted query, and a truthy projection
   * or sort is accepted; falsy ones are never inspected.
   */
  lemma QueryGateIff(collectionName: Value, filter: Value, projection: Value, sort: Value)
    ensures QueryGate(collectionName, filter, projection, sort) == Pass
        <==> collectionName.Str? && CollectionNameAccepted(collectionName.s)
             && (Truthy(EffectiveFilter(filter)) ==> QueryAccepted(EffectiveFilter(filter), true))
             && (Truthy(projection) ==> ValidateProjection(projection).Ok?)
             && (Truthy(sort) ==> ValidateSortSpecification(sort).Ok?)
  {
    QueryIff(EffectiveFilter(filter), true);
  }

  /** A rejected collection name is reported whatever the other arguments are. */
  lemma CollectionCheckedFirst(collectionName: Value, filter: Value, projection: Value, sort: Value, pipeline: Value)
    requires CheckCollectionValue(collectionName).Fail?
    ensures QueryGate(collectionName, filter, projection, sort) == CheckCollectionValue(collectionName)
    ensures AggregationGate(collectionName, pipeline) == CheckCollectionValue(collectionName)
    ensures CollectionError(QueryGate(collectionName, filter, projection, sort).error)
  {
  }

  /** An aggregation gets through exactly when the collection name and every stage are accepted. */
  lemma AggregationGateIff(collectionName: Value, pipeline: Value)
    ensures AggregationGate(collectionName, pipeline) == Pass
        <==> collectionName.Str? && CollectionNameAccepted(collectionName.s) && PipelineAccepted(pipeline)
  {
    PipelineIff(pipeline);
  }

  /**
   * A falsy filter that is not `None` (`0`, `""`, `[]`) is never validated,
   * so it reaches the database call.
   */
  lemma FalsyFilterNotValidated()
    ensures QueryGate(Str("users"), Int(0), Null, Null) == Pass
    ensures QueryGate(Str("users"), Arr([]), Null, Null) == Pass
  {
    assert CollectionNameAccepted("users") by {
      assert MatchesNamePattern("users") by {
        MatchesNamePatternIff("users");
      }
    }
  }

  /** A request that reached the database. */
  datatype Request =
    | Find(collection: string, filter: Value, projection: Value, sort: Option<Value>, limit: int)
    | Aggregate(collection: string, pipeline: Value)

  /** The database's answer to a request: an operation failure, or the cursor's documents. */
  datatype Reply = Failure | Cursor(docs: seq<Document>)

  /** What an execute function produces: the converted documents, a validation error, or a database error. */
  datatype QueryResult = Rows(docs: seq<Document>) | Rejected(error: Violation) | DatabaseError

  /** The find request the gate lets through: the filter after the `None` default, the sort only when truthy. */
  function FindRequest(collection: string, filter: Value, projection: Value, sort: Value, limit: int): Request {
    Find(collection, EffectiveFilter(filter), projection, if Truthy(sort) then Some(sort) else None, limit)
  }

  /** The answer converted as the execute functions return it. */
  predicate Answers(reply: Reply, result: QueryResult) {
    match reply
    case Failure => result == DatabaseError
    case Cursor(docs) =>
      result.Rows? && |result.docs| == |docs|
      && forall k :: 0 <= k < |docs| ==> result.docs[k] == ConvertDocument(docs[k])
  }

  /** The database, seen only through the requests that reach it. */
  class Database {
    var requests: seq<Request>

    constructor ()
      ensures requests == []
    {
      requests := [];
    }

    /**
     * `execute_mongodb_query`: every check runs before the database is
     * touched, so a rejected request is never sent.
     */
    method ExecuteMongoDBQuery(collectionName: Value, filter: Value, projection: Value, sort: Value, limit: int,
                               reply: Reply)
      returns (result: QueryResult)
      modifies this
      ensures var gate := QueryGate(collectionName, filter, projection, sort);
        if gate.Fail? then result == Rejected(gate.error) && requests == old(requests)
        else (collectionName.Str?
              && requests == old(requests) + [FindRequest(collectionName.s, filter, projection, sort, limit)]
              && Answers(reply, result))
    {
      ghost var gate := QueryGate(collectionName, filter, projection, sort);
      var check := CheckCollectionValue(collectionName);
      if check.Fail? {
        assert gate == check;
        return Rejected(check.error);
      }
      var filterQuery := filter;
      if filterQuery == Null {
        filterQuery := Obj([]);
      }
      assert filterQuery == EffectiveFilter(filter);
      if Truthy(filterQuery) {
        check := ValidateQueryStructure(filterQuery, true);
        if check.Fail? {
          assert gate == check;
          return Rejected(check.error);
        }
      }
      if Truthy(projection) {
        var p := ValidateProjection(projection);
        if p.Err? {
          assert gate == Fail(p.error);
          return Rejected(p.error);
        }
      }
      if Truthy(sort) {
        var s := ValidateSortSpecification(sort);
        if s.Err? {
          assert gate == Fail(s.error);
          return Rejected(s.error);
        }
      }
      assert gate == Pass;
      requests := requests + [FindRequest(collectionName.s, filter, projection, sort, limit)];
      if reply.Failure? {
        return DatabaseError;
      }
      var rows := ConvertResults(reply.docs);
      result := Rows(rows);
    }

    /** `execute_aggregation_pipeline`: the collection name and the whole pipeline are checked first. */
    method ExecuteAggregationPipeline(collectionName: Value, pipeline: Value, reply: Reply)
      returns (result: QueryResult)
      modifies this
      ensures var gate := AggregationGate(collectionName, pipeline);
        if gate.Fail? then result == Rejected(gate.error) && requests == old(requests)
        else (collectionName.Str?
              && requests == old(requests) + [Aggregate(collectionName.s, pipeline)]
              && Answers(reply, result))
    {
      var check := CheckCollectionValue(collectionName);
      if check.Fail? {
        return Rejected(check.error);
      }
      var p := ValidateAggregationPipeline(pipeline);
      if p.Err? {
        return Rejected(p.error);
      }
      requests := requests + [Aggregate(collectionName.s, pipeline)];
      if reply.Failure? {
        return DatabaseError;
      }
      var rows := ConvertResults(reply.docs);
      result := Rows(rows);
    }
  }

  // ---------------------------------------------------------------------
  // get_database_schema
  // ---------------------------------------------------------------------

  /** The documents sampled per collection. */
  const SampleSize := 10

  /** The converted documents the report keeps per collection. */
  const SampleDataSize := 3

  /** The threshold handed to relationship detection. */
  const SchemaMinConfidence := 0.3

  function Min(a: nat, b: nat): nat {
    if a <= b then a else b
  }

  /** `type(v).__name__` */
  function TypeName(v: Value): string {
    match v
    case Null => "NoneType"
    case Bool(_) => "bool"
    case Int(_) => "int"
    case Float(_) => "float"
    case Str(_) => "str"
    case Oid(_) => "ObjectId"
    case Arr(_) => "list"
    case Tuple(_) => "tuple"
    case Obj(_) => "dict"
  }

  /** A field's entry: its Python type name and its converted first value. */
  datatype FieldInfo = FieldInfo(typeName: string, sample: Value)

  /** A collection's entry; `sampleData` is absent for a collection with no document. */
  datatype CollectionInfo = CollectionInfo(count: nat, fields: seq<(string, FieldInfo)>, sampleData: Option<seq<Document>>)

  datatype SchemaReport = SchemaReport(collections: seq<(string, CollectionInfo)>, relationships: seq<FieldRelationship>)

  function FieldInfoOf(v: Value): FieldInfo {
    FieldInfo(TypeName(v), ConvertObjectIds(v))
  }

  function TypeOf(info: FieldInfo): string {
    info.typeName
  }

  /** `list(collection.find().limit(10))` */
  function Sample(docs: seq<Document>): seq<Document> {
    docs[..Min(SampleSize, |docs|)]
  }

  /** `[convert(doc) for doc in sample_docs[:3]]` */
  function SampleData(sample: seq<Document>): seq<Document> {
    seq(Min(SampleDataSize, |sample|), i requires 0 <= i < Min(SampleDataSize, |sample|) => ConvertDocument(sample[i]))
  }

  /** The entry of a collection holding `docs`. */
  function CollectionInfoOf(docs: seq<Document>): CollectionInfo {
    var sample := Sample(docs);
    if sample == [] then CollectionInfo(0, [], None)
    else CollectionInfo(|docs|, FirstSeen(sample, FieldInfoOf), Some(SampleData(sample)))
  }

  /** A collection of the listing contributes its entry unless it is a `system.` collection. */
  function CollectionEntry(entry: (string, seq<Document>)): seq<(string, CollectionInfo)> {
    if StartsWith(entry.0, "system.") then [] else [(entry.0, CollectionInfoOf(entry.1))]
  }

  /** The `collections` part of the report, built from the listing in order. */
  function SchemaOf(snapshot: seq<(string, seq<Document>)>): seq<(string, CollectionInfo)> {
    ConcatMap(snapshot, CollectionEntry)
  }

  function FieldTypes(info: CollectionInfo): seq<(string, string)> {
    MapValues(info.fields, TypeOf)
  }

  /** `schema_info`: collection -> field -> type name. */
  function SchemaInfo(collections: seq<(string, CollectionInfo)>): Schema {
    MapValues(collections, FieldTypes)
  }

  /** The whole report; relationships are empty when detection raises. */
  function DatabaseSchema(snapshot: seq<(string, seq<Document>)>, overlap: Overlap, detectionFails: bool): SchemaReport {
    var collections := SchemaOf(snapshot);
    SchemaReport(collections,
                 if detectionFails then [] else DetectAll(ShapeOf(SchemaInfo(collections)), overlap, SchemaMinConfidence))
  }

  /** The inner loop: the fields of one document, each added only if not yet present. */
  method AddFields(fields0: seq<(string, FieldInfo)>, doc: Document) returns (fields: seq<(string, FieldInfo)>)
    ensures fields == AddFirstSeen(fields0, doc, FieldInfoOf)
  {
    fields := fields0;
    for j := 0 to |doc|
      invariant fields == AddFirstSeen(fields0, doc[..j], FieldInfoOf)
    {
      assert doc[..j + 1][..j] == doc[..j];
      var (name, value) := doc[j];
      if !HasKey(fields, name) {
        fields := fields + [(name, FieldInfoOf(value))];
      }
    }
    assert doc[..|doc|] == doc;
  }

  /** The field table of a sample, filled document by document. */
  method InferFields(sample: seq<Document>) returns (fields: seq<(string, FieldInfo)>)
    ensures fields == FirstSeen(sample, FieldInfoOf)
  {
    fields := [];
    for i := 0 to |sample|
      invariant fields == FirstSeen(sample[..i], FieldInfoOf)
    {
      assert sample[..i + 1][..i] == sample[..i];
      fields := AddFields(fields, sample[i]);
    }
    assert sample[..|sample|] == sample;
  }

  /** The entry of one collection. */
  method CollectionSchema(docs: seq<Document>) returns (info: CollectionInfo)
    ensures info == CollectionInfoOf(docs)
  {
    var sample := docs[..Min(SampleSize, |docs|)];
    if sample == [] {
      info := CollectionInfo(0, [], None);
    } else {
      var fields := InferFields(sample);
      info := CollectionInfo(|docs|, fields, Some(SampleData(sample)));
    }
  }

  /** The loop building `schema_info` from the report's collections. */
  method BuildSchemaInfo(collections: seq<(string, CollectionInfo)>) returns (info: Schema)
    ensures info == SchemaInfo(collections)
  {
    info := [];
    for i := 0 to |collections|
      invariant info == SchemaInfo(collections[..i])
    {
      var (name, data) := collections[i];
      info := info + [(name, MapValues(data.fields, TypeOf))];
      assert collections[..i + 1] == collections[..i] + [collections[i]];
      MapValuesSnoc(collections[..i], collections[i], FieldTypes);
    }
    assert collections[..|collections|] == collections;
  }

  /**
   * `get_database_schema` over a listing of the collections (in the order
   * `list_collection_names` gives them, names distinct) and their
   * documents; `overlap` stands for the database sampling done by
   * detection, and `detectionFails` for detection raising.
   */
  method GetDatabaseSchema(snapshot: seq<(string, seq<Document>)>, overlap: Overlap, detectionFails: bool)
    returns (report: SchemaReport)
    requires DistinctKeys(snapshot)
    ensures report == DatabaseSchema(snapshot, overlap, detectionFails)
  {
    var collections: seq<(string, CollectionInfo)> := [];
    for i := 0 to |snapshot|
      invariant collections == SchemaOf(snapshot[..i])
    {
      ConcatMapPrefix(snapshot, i, CollectionEntry);
      var (name, docs) := snapshot[i];
      if !StartsWith(name, "system.") {
        var info := CollectionSchema(docs);
        collections := collections + [(name, info)];
      }
    }
    assert snapshot[..|snapshot|] == snapshot;
    var relationships: seq<FieldRelationship> := [];
    if !detectionFails {
      var schemaInfo := BuildSchemaInfo(collections);
      relationships := DetectAllRelationships(schemaInfo, overlap, SchemaMinConfidence);
    }
    report := SchemaReport(collections, relationships);
  }

  /**
   * The report has an entry for exactly the listed collections that are
   * not `system.` collections, each built from that collection's documents.
   */
  lemma {:induction false} SchemaLookup(snapshot: seq<(string, seq<Document>)>, c: string)
    requires DistinctKeys(snapshot)
    ensures Lookup(SchemaOf(snapshot), c)
         == if HasKey(snapshot, c) && !StartsWith(c, "system.") then Some(CollectionInfoOf(Lookup(snapshot, c).value))
            else None
    decreases |snapshot|
  {
    if snapshot != [] {
      var init := snapshot[..|snapshot| - 1];
      var last := snapshot[|snapshot| - 1];
      assert snapshot == init + [last];
      ConcatMapSnoc(init, last, CollectionEntry);
      SchemaLookup(init, c);
      LookupAppend(init, last.0, last.1, c);
      if last.0 == c {
        assert !HasKey(init, c) by {
          assert forall i :: 0 <= i < |init| ==> init[i].0 == snapshot[i].0;
        }
      }
      if !StartsWith(last.0, "system.") {
        assert SchemaOf(snapshot) == SchemaOf(init) + [(last.0, CollectionInfoOf(last.1))];
        LookupAppend(SchemaOf(init), last.0, CollectionInfoOf(last.1), c);
      } else {
        assert SchemaOf(snapshot) == SchemaOf(init);
      }
    }
  }

  /**
   * Detection sees, for each reported collection, each field typed by the
   * Python type of its first occurrence among the sampled documents.
   */
  lemma SchemaInfoTypes(snapshot: seq<(string, seq<Document>)>, c: string, k: string)
    requires DistinctKeys(snapshot)
    requires HasKey(snapshot, c) && !StartsWith(c, "system.")
    ensures var info := SchemaInfo(SchemaOf(snapshot));
      HasKey(info, c)
      && Lookup(Lookup(info, c).value, k) == MapOption(FirstValue(Sample(Lookup(snapshot, c).value), k), TypeName)
  {
    var docs := Lookup(snapshot, c).value;
    var collections := SchemaOf(snapshot);
    SchemaLookup(snapshot, c);
    LookupMapValues(collections, FieldTypes, c);
    var entry := CollectionInfoOf(docs);
    LookupMapValues(entry.fields, TypeOf, k);
    var sample := Sample(docs);
    if sample != [] {
      FirstSeenSpec(sample, FieldInfoOf, k);
    }
  }

  /** A table and its mapped version have the same keys. */
  lemma HasKeyMapValues<T, U>(t: seq<(string, T)>, f: T -> U, k: string)
    ensures HasKey(MapValues(t, f), k) <==> HasKey(t, k)
  {
    LookupMapValues(t, f, k);
  }

  /**
   * The reported relationships have distinct keys, meet the 0.3 threshold
   * and only connect reported collections, so never a `system.` one.
   */
  lemma SchemaRelationships(snapshot: seq<(string, seq<Document>)>, overlap: Overlap, detectionFails: bool,
                            e: FieldRelationship)
    requires DistinctKeys(snapshot)
    ensures var report := DatabaseSchema(snapshot, overlap, detectionFails);
      UniqueKeys(report.relationships)
      && (detectionFails ==> report.relationships == [])
      && (e in report.relationships ==>
            e.confidenceScore >= SchemaMinConfidence
            && HasKey(report.collections, e.sourceCollection) && !StartsWith(e.sourceCollection, "system.")
            && HasKey(report.collections, e.targetCollection) && !StartsWith(e.targetCollection, "system."))
  {
    var collections := SchemaOf(snapshot);
    var info := SchemaInfo(collections);
    var shape := ShapeOf(info);
    if !detectionFails {
      DetectAllUnique(shape, overlap, SchemaMinConfidence);
      if e in DetectAll(shape, overlap, SchemaMinConfidence) {
        DetectAllCollections(shape, overlap, SchemaMinConfidence, e);
        ShapeOfKeys(info, e.sourceCollection);
        ShapeOfKeys(info, e.targetCollection);
        HasKeyMapValues(collections, FieldTypes, e.sourceCollection);
        HasKeyMapValues(collections, FieldTypes, e.targetCollection);
        SchemaLookup(snapshot, e.sourceCollection);
        SchemaLookup(snapshot, e.targetCollection);
      }
    }
  }
}
