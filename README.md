# Natural-language MongoDB query interface: verified model of the core

The application lets a user upload CSV or JSON files into MongoDB collections.
The user asks questions in plain English, which a language model (OpenAI or
Anthropic) translates into a MongoDB `find` or aggregation request. The
request is checked and run, and the results are returned. This project models
the parts of the server's core that do not depend on the database or the
language model, and proves what they guarantee.

The modules:

- **`MongoSecurity`** (`mongo_security.dfy`): the fail-closed allow-list
  validators. They check collection names, field paths, find filters
  (recursive), aggregation pipelines mutually recursive with `$lookup`
  bodies, sort specifications, projections and regex patterns. Untrusted
  input is a JSON-like `Value` (`values.dfy`) whose dicts are ordered
  sequences of pairs, because the first violation found is the one reported.
  Each validator is a function returning `Ok`/`Err` (or `Pass`/`Fail`), with
  one `Violation` constructor per error the source raises. A Python
  `TypeError` on an ill-typed value counts as a rejection (`IllTyped`). Each
  validator is proved equal to an independent acceptance predicate
  (`…Iff` lemmas).
- **`RelationshipDetector`** (`relationship_detector.dfy`, with the
  records of `data_models.dfy`) infers relationships between collections:
  - the `_id` pass and the name pass are loops (methods), each proved equal
    to a specification function and characterised edge by edge;
  - value overlap is a function of two given samples;
  - the confidence formula is a function;
  - `detect_all_relationships` is a method with a seen-key set across three
    loops, proved equal to a fold. Lemmas prove that keys are unique, that
    every entry meets the threshold, that entries come in pass order, and
    that nothing qualifying is dropped.
- **`MongoProcessor`** (`mongo_processor.dfy`):
  - ObjectId-to-string conversion;
  - the validation gate of the two execute functions, run on a `Database`
    object whose request log shows that nothing reaches the database when
    validation fails;
  - `get_database_schema` over a snapshot of the listed collections and
    their documents.
- **`FileProcessor`** (`file_processor.dfy`): collection-name sanitizing
  for uploads, with the cross-module theorem that every sanitized name
  passes `validate_collection_name`. Also field-type inference.
- **`LlmProcessor`** (`llm_processor.dfy`): the model-free parts of query
  generation:
  - provider selection;
  - the reply cleaning (markdown fences, whitespace);
  - the required-key check, with Python's `in` on lists and strings;
  - error prefixing;
  - the line layout of the schema description put into the prompt.
- Supporting modules:
  - `Text`: the Python `str` operations used, with their properties.
  - `Values`: ordered tables, `Lookup`, first-seen table building.
  - `Seqs`: `ConcatMap` and `FoldLeft`, the specification form of
    "append in a loop".
- `security_examples.dfy` and `detector_examples.dfy` apply the general
  results to the fixtures of the repository's unit tests. They also exhibit
  the corner cases the code allows:
  - `$where` inside a `$match` stage is not inspected;
  - a doubly nested list is never looked into;
  - a collection name with a trailing newline is accepted;
  - `True` passes as a sort direction;
  - `orders.order_id` resolves to `orders` itself.

Where the code and the repository's own expectations differ, the model
follows the code:

- The common-field pass pairs only fields with the same name.
  `test_bidirectional_relationships`
  (app/server/tests/core/test_relationship_detector.py:185-217) expects a
  relationship between `users.city` and `products.location`. The code never
  produces one, and `DetectorExamples.DifferentNamesNotPaired` proves that
  on the test's schema.
- `validate_collection_name` accepts a name ending in a single newline,
  because Python's `$` matches before a final newline. The model accepts
  it too (`SecurityExamples.TrailingNewlineNameAccepted`).

## Model

| member | source | states |
|---|---|---|
| MongoSecurity.NameRun | app/server/core/mongo_security.py:53 | the longest prefix of `[a-zA-Z0-9_-]` characters: all of them name characters, and the next one is not |
| MongoSecurity.MatchesNamePatternIff | app/server/core/mongo_security.py:53-56 | `re.match(r'^[a-zA-Z0-9_-]+$')` holds exactly for a non-empty run of name characters, optionally followed by one final newline |
| MongoSecurity.AcceptedNameShape | app/server/core/mongo_security.py:43-50 | an accepted name never contains NUL or `$` and never starts with `system.`: those tests only decide which message fires |
| MongoSecurity.ValidateCollectionName | app/server/core/mongo_security.py:17-58 | accepts exactly the names of at most 120 characters that match the pattern (the trailing-newline case included) and returns them unchanged; every rejection is a collection-name error |
| MongoSecurity.CheckCollectionValue | app/server/core/mongo_security.py:37-58 | on any Python value: passes exactly an accepted string, and every failure, including the type errors of non-strings, is a collection-name error |
| MongoSecurity.CheckFieldParts | app/server/core/mongo_security.py:87-93 | the loop over the dot-separated parts passes exactly when every part is non-empty and does not start with `$`, and fails only with a part error |
| MongoSecurity.PartsOkCons | app/server/core/mongo_security.py:87-93 | the parts condition splits into the first part's condition and the rest's |
| MongoSecurity.DotPathDecompose | app/server/core/mongo_security.py:87-93 | the character-level path rule decomposes at the first dot |
| MongoSecurity.PartsOkIff | app/server/core/mongo_security.py:87-93 | splitting at `.` and checking the parts is equivalent to the character-level rule: no leading or trailing dot, no leading `$`, every dot followed by a character other than `.` or `$` |
| MongoSecurity.ValidateFieldName | app/server/core/mongo_security.py:61-95 | accepts exactly the non-empty NUL-free paths whose parts are non-empty and not `$`-prefixed, returns them unchanged, and rejects only with field-name errors |
| MongoSecurity.CheckFieldValue | app/server/core/mongo_security.py:80-95 | on any Python value: passes exactly an accepted string path |
| MongoSecurity.CheckQueryKey | app/server/core/mongo_security.py:118-143 | per key: `$where` is rejected as dangerous before anything else; another `$` key must be one of the 22 allowed operators and is refused when operators are disallowed; other keys must be valid field paths |
| MongoSecurity.ValidateQueryStructure | app/server/core/mongo_security.py:98-151 | `validate_query_structure` on any value, a non-dict rejected first; QueryIff proves it passes exactly the filters of QueryAccepted, and WhereRejected and OperatorsRejectedWhenDisallowed name the failing cases |
| MongoSecurity.CheckQueryFields | app/server/core/mongo_security.py:118-143 | the loop over a dict's keys from position i; QueryFieldsIff proves it passes exactly when every remaining key is accepted and every remaining value's nested structure is accepted |
| MongoSecurity.CheckNestedQuery | app/server/core/mongo_security.py:145-151 | the recursion into a value: a dict as a filter with operators allowed, a list item by item, anything else passes; NestedIff proves it passes exactly NestedAccepted values |
| MongoSecurity.CheckQueryItems | app/server/core/mongo_security.py:148-151 | the loop over a list's items from position j; QueryItemsIff proves it passes exactly when every remaining dict item is an accepted filter |
| MongoSecurity.QueryIff | app/server/core/mongo_security.py:98-151 | `validate_query_structure` passes exactly the filters of the recursive acceptance predicate, which recurses with operators allowed into dict values and dict elements of list values only |
| MongoSecurity.QueryFieldsIff | app/server/core/mongo_security.py:118-151 | the loop over a dict's keys passes exactly when every remaining key is accepted and every remaining value is an accepted nested value |
| MongoSecurity.NestedIff | app/server/core/mongo_security.py:145-151 | a value is passed exactly when it is an accepted dict, a list whose dict elements are accepted, or anything else (not inspected) |
| MongoSecurity.QueryItemsIff | app/server/core/mongo_security.py:148-151 | the loop over a list passes exactly when each of its dict elements is an accepted filter; nested lists and scalars are skipped |
| MongoSecurity.WhereRejected | app/server/core/mongo_security.py:121-123 | a `$where` key makes the filter fail whatever `allow_operators` is |
| MongoSecurity.OperatorsRejectedWhenDisallowed | app/server/core/mongo_security.py:126-128 | with operators disallowed, any `$` key at top level is rejected |
| MongoSecurity.ValidateAggregationPipeline | app/server/core/mongo_security.py:221-269 | an accepted pipeline is returned unchanged |
| MongoSecurity.ValidateLookupStage | app/server/core/mongo_security.py:154-218 | an accepted `$lookup` body is returned unchanged |
| MongoSecurity.CheckLookupTarget | app/server/core/mongo_security.py:170-187 | the `from` and `as` checks of a lookup, in the source's order; LookupTargetIff proves which bodies pass and that the `system.` error is never the outcome, since the name check already rejects such names |
| MongoSecurity.LookupTargetIff | app/server/core/mongo_security.py:170-187 | the `from`/`as` checks pass exactly for a valid collection name and a non-empty valid `as` path, and never report the `system.` lookup error |
| MongoSecurity.PipelineIff | app/server/core/mongo_security.py:221-269 | the pipeline validator accepts exactly a list of accepted stages: single-key dicts naming one of the 24 allowed stages, never `$function`/`$accumulator`, with `$lookup` bodies accepted |
| MongoSecurity.CheckStages | app/server/core/mongo_security.py:246-267 | the loop over the stages from position i, stopping at the first failure; StagesIff proves it passes exactly when every remaining stage is accepted, StagesSame that two pipelines whose stages get the same verdicts get the same verdict |
| MongoSecurity.CheckStage | app/server/core/mongo_security.py:247-267 | one stage: a one-key dict, not dangerous, `$`-prefixed, allowed, and a valid `$lookup` body; StageIff proves it passes exactly StageAccepted stages |
| MongoSecurity.StagesIff | app/server/core/mongo_security.py:246-267 | the stage loop from index i passes exactly when every later stage is accepted |
| MongoSecurity.StageIff | app/server/core/mongo_security.py:247-267 | one stage passes exactly when it is an accepted stage; only a `$lookup` body is looked into |
| MongoSecurity.LookupIff | app/server/core/mongo_security.py:154-218 | `validate_lookup_stage` accepts exactly the accepted bodies: valid target, then the equality form when `localField` or `foreignField` is present (only those present checked, `pipeline`/`let` ignored), else a valid `pipeline` and an optional dict `let` without empty names; neither form is rejected |
| MongoSecurity.CheckJoinSpec | app/server/core/mongo_security.py:189-216 | the join check of a lookup, equality form before pipeline form; JoinSpecIff proves which bodies pass |
| MongoSecurity.CheckLetVars | app/server/core/mongo_security.py:207-214 | the `let` check of the pipeline form; JoinSpecIff proves it passes exactly a dict without an empty variable name |
| MongoSecurity.JoinSpecIff | app/server/core/mongo_security.py:189-216 | the join-specification part of that equivalence |
| MongoSecurity.NoSystemLookupError | app/server/core/mongo_security.py:171-179 | the explicit `system.` test in `validate_lookup_stage` can never be the error reported, at any nesting depth: the collection-name check before it already rejects such names |
| MongoSecurity.NoSystemLookupErrorStages | app/server/core/mongo_security.py:171-179 | the same for the stage loop |
| MongoSecurity.NoSystemLookupErrorLookup | app/server/core/mongo_security.py:171-179 | the same for one `$lookup` body |
| MongoSecurity.BadStageRejectsPipeline | app/server/core/mongo_security.py:248-263 | any stage that is not a single-key dict with an allowed name rejects the whole pipeline |
| MongoSecurity.NonLookupBodyIgnored | app/server/core/mongo_security.py:265-267 | replacing the body of any stage other than `$lookup` changes neither the verdict nor the violation reported |
| MongoSecurity.StagesSame | app/server/core/mongo_security.py:246-267 | two pipelines whose stages are judged alike are judged alike |
| MongoSecurity.SanitizeRegexPattern | app/server/core/mongo_security.py:272-311 | accepts exactly a string of at most 1000 characters with at most 20 `(` and none of the four dangerous repetitions, and returns it unchanged |
| MongoSecurity.CheckSortEntries | app/server/core/mongo_security.py:330-334 | the sort loop passes exactly when every key is a valid field path and every value equals 1 or -1 under Python equality |
| MongoSecurity.ValidateSortSpecification | app/server/core/mongo_security.py:314-336 | accepts exactly dicts whose keys are valid paths and whose values are 1 or -1 (`True` included), returning them unchanged |
| MongoSecurity.CheckProjectionEntries | app/server/core/mongo_security.py:355-359 | the projection loop passes exactly when every value is 0, 1, True or False under Python equality |
| MongoSecurity.ValidateProjection | app/server/core/mongo_security.py:339-361 | accepts exactly dicts whose values are 0, 1, True or False, returning them unchanged |
| SecurityExamples.AllowedLookupStage | app/server/tests/core/test_cross_collection_queries.py:61-76 | `$lookup` is an allowed stage name |
| SecurityExamples.EqualityLookupTarget | app/server/tests/core/test_cross_collection_queries.py:61-76 | the equality lookup of the tests has an accepted target |
| SecurityExamples.EqualityLookupJoin | app/server/tests/core/test_cross_collection_queries.py:61-76 | its join specification is accepted |
| SecurityExamples.EqualityLookupStage | app/server/tests/core/test_cross_collection_queries.py:61-76 | the whole stage is accepted |
| SecurityExamples.EqualityLookupPipelineAccepted | app/server/tests/core/test_cross_collection_queries.py:61-76 | the equality lookup pipeline between two `$match` stages is returned unchanged |
| SecurityExamples.NestedPipelineAccepted | app/server/tests/core/test_cross_collection_queries.py:79-96 | the nested pipeline with `$expr` passes, since `$match` bodies are not inspected |
| SecurityExamples.PipelineLookupTarget | app/server/tests/core/test_cross_collection_queries.py:79-96 | the pipeline-form lookup has an accepted target |
| SecurityExamples.PipelineLookupJoin | app/server/tests/core/test_cross_collection_queries.py:79-96 | its `let` and nested pipeline are accepted |
| SecurityExamples.PipelineLookupStage | app/server/tests/core/test_cross_collection_queries.py:79-96 | the whole stage is accepted |
| SecurityExamples.PipelineLookupAccepted | app/server/tests/core/test_cross_collection_queries.py:79-96 | the pipeline-form lookup with `let` is returned unchanged |
| SecurityExamples.LookupMissingFromRejected | app/server/tests/core/test_cross_collection_queries.py:99-109 | a lookup without `from` fails with the missing-`from` error |
| SecurityExamples.LookupSystemCollectionRejected | app/server/tests/core/test_cross_collection_queries.py:111-121 | `from: "system.users"` is stopped by the collection-name check with the reserved-namespace error |
| SecurityExamples.LookupMissingAsRejected | app/server/tests/core/test_cross_collection_queries.py:124-133 | a lookup without `as` fails with the missing-`as` error |
| SecurityExamples.LookupMissingJoinSpecRejected | app/server/tests/core/test_cross_collection_queries.py:136-145 | a lookup with neither join form fails with that error |
| SecurityExamples.LookupDollarCollectionRejected | app/server/tests/core/test_cross_collection_queries.py:147-157 | `products$injection` gets the `$` message |
| SecurityExamples.WhereStageUnknown | app/server/tests/core/test_cross_collection_queries.py:160-172 | `$where` used as a stage name is an unknown stage |
| SecurityExamples.AffordableProductsTarget | app/server/core/mongo_security.py:170-187 | the target checks of a pipeline-form lookup do not depend on its `let` or `pipeline` |
| SecurityExamples.NestedWhereStageRejected | app/server/tests/core/test_cross_collection_queries.py:160-172 | a `$where` stage inside a nested lookup pipeline rejects the whole pipeline |
| SecurityExamples.WhereInsideMatchNotInspected | app/server/core/mongo_security.py:265-267 | a `$match` stage carrying `$where` passes the pipeline validator |
| SecurityExamples.WhereInFilterRejected | app/server/core/mongo_security.py:121-123 | `$where` directly in a filter, or in a dict inside a list, is rejected as dangerous |
| SecurityExamples.DoublyNestedListNotInspected | app/server/core/mongo_security.py:145-151 | `{"$or": [[{"$where": "x"}]]}` passes: lists inside lists are not looked at |
| SecurityExamples.TrailingNewlineNameAccepted | app/server/core/mongo_security.py:53 | `"users\n"` is accepted as a collection name |
| SecurityExamples.NestedFieldPathAccepted | app/server/core/mongo_security.py:86-95 | `address.city` is a valid path |
| SecurityExamples.EmptyFieldPartRejected | app/server/core/mongo_security.py:89-90 | `a..b` fails with the empty-part error |
| SecurityExamples.DollarFieldPartRejected | app/server/core/mongo_security.py:92-93 | `a.$b` fails with the `$`-part error naming `$b` |
| SecurityExamples.SortDirectionExamples | app/server/core/mongo_security.py:333 | `True` is a valid sort direction, `"asc"` is not |
| SecurityExamples.RepeatedStarRejected | app/server/core/mongo_security.py:300-309 | `a*b*c*` is rejected as dangerous repetition |
| SecurityExamples.PlainPatternAccepted | app/server/core/mongo_security.py:272-311 | a plain pattern is returned unchanged |
| DataModels.TypeValue | app/server/core/data_models.py:7-10 | the enumeration's string values are non-empty |
| DataModels.TypeValueInjective | app/server/core/data_models.py:7-10 | distinct relationship types have distinct string values |
| DataModels.KeysAppend | app/server/core/relationship_detector.py:258-261 | appending an edge adds exactly its 4-tuple key to the seen keys |
| DataModels.UniqueKeysAppend | app/server/core/relationship_detector.py:258-261 | appending an edge whose key is unseen keeps keys unique |
| DataModels.KeysPrefix | app/server/core/relationship_detector.py:252-322 | the keys of a prefix are keys of the whole list |
| RelationshipDetector.KeyAtIndex | app/server/core/relationship_detector.py:34 | every listed collection is a key of the schema |
| RelationshipDetector.StemRestores | app/server/core/relationship_detector.py:38-39 | the stem with `_id` put back is the field itself, so the `<stem>_id` fallback target field is the source field's own name |
| RelationshipDetector.ResolveIdTarget | app/server/core/relationship_detector.py:41-49 | a resolved target (stem, else stem+`s`, else stem minus trailing `s`) is a collection of the schema |
| RelationshipDetector.IdRuleEdges | app/server/core/relationship_detector.py:37-69 | the `_id`-suffix rule for one field; IdRuleEdgesIff proves it yields at most one edge, namely the one IsIdEdge describes |
| RelationshipDetector.IdRuleEdgesIff | app/server/core/relationship_detector.py:37-69 | the `_id` rule emits at most one edge, exactly the one-to-many 0.9 edge to the resolved target's `id`, else the field's own name |
| RelationshipDetector.CollectionNameEdgesIff | app/server/core/relationship_detector.py:71-85 | the collection-name rule links a field, with a one-to-many 0.7 edge to `id` or else `_id`, to exactly the other collections it names (name, name+`s`, or `rstrip('s')` equal to the field) |
| RelationshipDetector.IdEdges | app/server/core/relationship_detector.py:17-87 | the result of `detect_id_field_relationships`; IdEdgesIff proves it holds exactly the edges IsIdPassEdge describes, and DetectIdFieldRelationships computes it by the source's loops |
| RelationshipDetector.IdEdgesIff | app/server/core/relationship_detector.py:17-87 | the `_id` pass yields exactly the edges of the two rules from fields present in the schema |
| RelationshipDetector.IdEdgesKinds | app/server/core/relationship_detector.py:62-83 | every `_id`-pass edge is one-to-many with confidence 0.9 or 0.7 |
| RelationshipDetector.CollectionNameLoop | app/server/core/relationship_detector.py:72-85 | the loop over candidate targets computes the collection-name rule's edges in schema order |
| RelationshipDetector.IdFieldsLoop | app/server/core/relationship_detector.py:35-85 | the loop over one collection's fields appends both rules' edges for each field in order |
| RelationshipDetector.DetectIdFieldRelationships | app/server/core/relationship_detector.py:17-87 | `detect_id_field_relationships` returns exactly the specified `_id`-pass edges, in collection and field order |
| RelationshipDetector.NameParts | app/server/core/relationship_detector.py:116-118 | the prefix is the text before the first `_` and the suffix the text after it |
| RelationshipDetector.NameFieldEdgesIff | app/server/core/relationship_detector.py:113-138 | a field's name-pass edges are exactly the one-to-many 0.75 edges to the collections (source included) that start with the synonym-mapped prefix or whose `rstrip('s')` equals it, and that hold the suffix as a field |
| RelationshipDetector.NameEdges | app/server/core/relationship_detector.py:90-140 | the result of `detect_name_based_relationships`; NameEdgesIff proves it holds exactly the edges IsNamePassEdge describes, and DetectNameBasedRelationships computes it by the source's loops |
| RelationshipDetector.NameEdgesIff | app/server/core/relationship_detector.py:90-140 | the name pass yields exactly those edges, for underscored fields of the schema |
| RelationshipDetector.NameLoop | app/server/core/relationship_detector.py:127-138 | the loop over candidate targets computes one field's name edges in order |
| RelationshipDetector.NameFieldsLoop | app/server/core/relationship_detector.py:114-138 | the loop over one collection's fields splits each underscored name and appends its edges |
| RelationshipDetector.DetectNameBasedRelationships | app/server/core/relationship_detector.py:90-140 | `detect_name_based_relationships` returns exactly the specified name-pass edges in order |
| RelationshipDetector.SubsetCardinality | app/server/core/relationship_detector.py:194-198 | a subset is no larger than its superset, which bounds the overlap ratio |
| RelationshipDetector.ProperSubsetCardinality | app/server/core/relationship_detector.py:194-198 | a proper subset is smaller, so a missing value keeps the ratio below 1 |
| RelationshipDetector.ValueOverlap | app/server/core/relationship_detector.py:143-202 | the overlap of two value samples; OverlapRatio proves its value, OverlapFull when it is 1.0 and OverlapPositive when it is positive |
| RelationshipDetector.OverlapRatio | app/server/core/relationship_detector.py:143-202 | the overlap is 0.0 when either sample fails, is empty or has no non-null value, and otherwise exactly \|S∩T\|/\|S\|; the `min(…, 1.0)` never applies |
| RelationshipDetector.OverlapFull | app/server/core/relationship_detector.py:194-198 | the overlap is 1.0 exactly when every distinct source value occurs in the target |
| RelationshipDetector.OverlapPositive | app/server/core/relationship_detector.py:194-198 | the overlap is positive exactly when the samples share a value |
| RelationshipDetector.Clamp | app/server/core/relationship_detector.py:226-233 | the clamp `min(max(x, 0.0), 1.0)` lands in [0, 1] and leaves values already there alone |
| RelationshipDetector.CalculateRelationshipConfidence | app/server/core/relationship_detector.py:205-233 | no samples gives 0.0, and the result is always a valid confidence |
| RelationshipDetector.ConfidenceUnclamped | app/server/core/relationship_detector.py:221-233 | for sensible counts the result is the match ratio when the base is 0.0, else the mean of base and ratio |
| RelationshipDetector.ConfidenceMonotone | app/server/core/relationship_detector.py:221-233 | more matches never lower the confidence |
| RelationshipDetector.CollectionsWithFieldIff | app/server/core/relationship_detector.py:287-290 | the collections listed for a common field are exactly those holding it |
| RelationshipDetector.PairRow | app/server/core/relationship_detector.py:294-296 | one row of the pairwise loop pairs the source with each later collection |
| RelationshipDetector.PairsUpToIff | app/server/core/relationship_detector.py:294-296 | the pairwise loops visit exactly the pairs of positions i<j |
| RelationshipDetector.PairsUpToLength | app/server/core/relationship_detector.py:294-296 | the pairwise loops produce one candidate per pair of positions, n·(n−1)/2 in all |
| RelationshipDetector.FieldCandidatesIff | app/server/core/relationship_detector.py:286-296 | the candidates of a common field are exactly the ordered pairs of distinct positions among the collections holding it, when at least two do |
| RelationshipDetector.KeepIdEdge | app/server/core/relationship_detector.py:257-261 | one step of the first loop; KeepIdFold proves what the fold of these steps keeps |
| RelationshipDetector.KeepIdFold | app/server/core/relationship_detector.py:257-261 | the first loop keeps keys unique and the threshold met, and keeps only edges of its input |
| RelationshipDetector.KeepNameEdge | app/server/core/relationship_detector.py:265-283 | one step of the second loop; KeepNameFold proves what the fold of these steps keeps |
| RelationshipDetector.KeepNameFold | app/server/core/relationship_detector.py:265-283 | the second loop keeps keys unique and the threshold met, and appends only name edges with overlap above 0.2, rescored to the mean |
| RelationshipDetector.KeepCommonField | app/server/core/relationship_detector.py:298-318 | one step of the third loop; KeepCommonFold proves what the fold of these steps keeps |
| RelationshipDetector.KeepCommonFold | app/server/core/relationship_detector.py:298-318 | the third loop keeps keys unique and the threshold met, and appends only many-to-many candidate edges scored by their overlap |
| RelationshipDetector.IdPass | app/server/core/relationship_detector.py:252-261 | the list after the first loop; PassPrefixes and DetectAllOrder prove it is a prefix of the result made of `_id`-pass edges |
| RelationshipDetector.NamePass | app/server/core/relationship_detector.py:252-283 | the list after the second loop; PassPrefixes and DetectAllOrder prove it extends the first pass by rescored name edges and is a prefix of the result |
| RelationshipDetector.DetectAll | app/server/core/relationship_detector.py:236-322 | the result of `detect_all_relationships`; DetectAllUnique, DetectAllOrder, DetectAllCollections and DetectAllComplete prove its properties, and DetectAllRelationships computes it |
| RelationshipDetector.DetectAllUnique | app/server/core/relationship_detector.py:252-322 | no two results share a (source collection, source field, target collection, target field) key, and every result meets `min_confidence` |
| RelationshipDetector.PassPrefixes | app/server/core/relationship_detector.py:252-322 | each pass only appends to the list of the one before |
| RelationshipDetector.NameSegment | app/server/core/relationship_detector.py:265-283 | what the second pass appends are rescored name-pass edges |
| RelationshipDetector.CommonSegment | app/server/core/relationship_detector.py:286-318 | what the third pass appends are common-field edges |
| RelationshipDetector.DetectAllOrder | app/server/core/relationship_detector.py:252-322 | results come in pass order: `_id`-pass edges, then rescored name edges, then many-to-many common-field edges |
| RelationshipDetector.ShapeOfKeys | app/server/core/relationship_detector.py:34 | dropping the type tags keeps the collections |
| RelationshipDetector.DetectAllCollections | app/server/core/relationship_detector.py:252-322 | every detected relationship connects two collections of the schema |
| RelationshipDetector.DetectAllComplete | app/server/core/relationship_detector.py:252-322 | nothing qualifying is lost: each `_id` edge meeting the threshold, each name edge confirmed by overlap, and each common-field pair meeting the threshold has its key (for a pair, either direction's) in the result |
| RelationshipDetector.CommonFieldRow | app/server/core/relationship_detector.py:295-317 | the inner loop pairs one collection with each later one, skipping pairs linked in either direction, and keeps the seen set equal to the result's keys |
| RelationshipDetector.CommonFieldPairs | app/server/core/relationship_detector.py:292-318 | the pairwise loops of one common field compute the fold over its pairs and keep the seen set equal to the result's keys |
| RelationshipDetector.KeepIdLoop | app/server/core/relationship_detector.py:256-261 | the first loop computes its fold, with the seen set equal to the kept keys |
| RelationshipDetector.KeepNameLoop | app/server/core/relationship_detector.py:264-283 | the second loop computes its fold, with the seen set equal to the kept keys |
| RelationshipDetector.KeepCommonLoop | app/server/core/relationship_detector.py:285-318 | the third loop computes its fold over every common field's pairs |
| RelationshipDetector.DetectAllRelationships | app/server/core/relationship_detector.py:236-322 | `detect_all_relationships` returns the specified combination of the three passes, with unique keys and every confidence at least `min_confidence`; field types are never read |
| DetectorExamples.UserIdReferencesUsers | app/server/tests/core/test_relationship_detector.py:52-74 | `orders.user_id → users.id` is found with confidence 0.9 |
| DetectorExamples.ProductIdReferencesProducts | app/server/tests/core/test_relationship_detector.py:52-74 | `orders.product_id → products.product_id` is found, since products has no `id` |
| DetectorExamples.OrderIdReferencesItself | app/server/tests/core/test_relationship_detector.py:35-41 | `orders.order_id` resolves to `orders` itself |
| DetectorExamples.NameEdgeIntro | app/server/core/relationship_detector.py:113-138 | a name-pass edge from its parts: first underscore, matching target, suffix field |
| DetectorExamples.CustomerNameReferencesUsers | app/server/tests/core/test_relationship_detector.py:77-98 | `orders.customer_name → users.name` via the customer→user synonym |
| DetectorExamples.ProductCategoryReferencesProducts | app/server/tests/core/test_relationship_detector.py:77-98 | `orders.product_category → products.category` |
| DetectorExamples.NoFalsePositives | app/server/tests/core/test_relationship_detector.py:158-182 | `random_field` and `unrelated_field` start no `_id`-pass edge |
| DetectorExamples.CollectionsWithFieldOfTwo | app/server/core/relationship_detector.py:287-290 | in a two-collection schema the holders of a field are read off the two entries |
| DetectorExamples.NoCityOrLocationPairs | app/server/core/relationship_detector.py:286-292 | `city` and `location`, each held by one collection, yield no pair |
| DetectorExamples.IdPassNotCity | app/server/core/relationship_detector.py:34-85 | no `_id`-pass edge starts at `city` or `location` |
| DetectorExamples.FieldNeverSource | app/server/core/relationship_detector.py:252-322 | a field with no `_id` edge, no underscore and no common-field pair is never a source |
| DetectorExamples.DifferentNamesNotPaired | app/server/tests/core/test_relationship_detector.py:185-217 | on the schema of this test, no relationship starts at `city` or `location`, whatever the overlap: differently named fields are never paired |
| DetectorExamples.StringSet | app/server/core/relationship_detector.py:190-191 | the non-null set of strings is the set of the values |
| DetectorExamples.ThreeStrings | app/server/tests/core/test_relationship_detector.py:101-138 | three sampled strings form the set of those three values |
| DetectorExamples.CitySets | app/server/tests/core/test_relationship_detector.py:101-138 | three source values, two shared |
| DetectorExamples.TwoOfThreeCitiesOverlap | app/server/tests/core/test_relationship_detector.py:101-138 | the overlap of the test's cities is 2/3 |
| DetectorExamples.SingleMatchingValueOverlaps | app/server/tests/core/test_relationship_detector.py:265-286 | a single matching value is a full overlap |
| DetectorExamples.EmptySamplesDoNotOverlap | app/server/tests/core/test_relationship_detector.py:248-262 | an empty sample on either side gives 0.0 |
| DetectorExamples.ConfidenceExamples | app/server/tests/core/test_relationship_detector.py:141-155 | the scoring cases of the unit tests, e.g. (0, 100, 0.5) → 0.25 |
| MongoProcessor.ConvertObjectIds | app/server/core/mongo_processor.py:31-53 | `convert_objectids_to_strings`; ConvertRemovesObjectIds, ConvertFixesObjectIdFree and ConvertIdempotent prove its properties |
| MongoProcessor.ConvertDocument | app/server/core/mongo_processor.py:48-49 | the conversion of one document; ConvertDocumentLookup proves it keeps the keys and converts each value |
| MongoProcessor.ConvertKeepsStructure | app/server/core/mongo_processor.py:46-53 | a case summary of the definition, one line per branch: an ObjectId becomes its string; dicts keep their keys in order with converted values; lists keep their length, converted elementwise; every other value, tuples included, is unchanged |
| MongoProcessor.ConvertRemovesObjectIds | app/server/core/mongo_processor.py:31-53 | the result contains no ObjectId at any depth reachable through dicts and lists |
| MongoProcessor.ConvertFixesObjectIdFree | app/server/core/mongo_processor.py:31-53 | a value without ObjectIds, empty dicts and lists included, is returned unchanged |
| MongoProcessor.ConvertIdempotent | app/server/core/mongo_processor.py:31-53 | converting twice equals converting once |
| MongoProcessor.ConvertDocumentLookup | app/server/core/mongo_processor.py:48-49 | a converted document has the same keys, each mapped to its converted value |
| MongoProcessor.ConvertResults | app/server/core/mongo_processor.py:147-151 | the result loop returns one converted document per cursor document, in order |
| MongoProcessor.ResultsObjectIdFree | app/server/core/mongo_processor.py:147-153 | every returned document is free of ObjectIds |
| MongoProcessor.QueryGate | app/server/core/mongo_processor.py:116-129 | the validation done before a find; QueryGateIff, CollectionCheckedFirst and FalsyFilterNotValidated prove which inputs pass and which error comes first |
| MongoProcessor.QueryGateIff | app/server/core/mongo_processor.py:116-129 | a find request passes exactly when the collection name is accepted, the filter (None read as {}) is an accepted query when truthy, and the projection and sort are accepted when truthy |
| MongoProcessor.CollectionCheckedFirst | app/server/core/mongo_processor.py:115-117 | a rejected collection name is the error reported by both gates (the aggregation gate checks it first too, line 178), whatever the other arguments |
| MongoProcessor.AggregationGate | app/server/core/mongo_processor.py:178-179 | the validation done before an aggregation; AggregationGateIff proves which inputs pass |
| MongoProcessor.AggregationGateIff | app/server/core/mongo_processor.py:178-179 | an aggregation passes exactly when the collection name and the whole pipeline are accepted |
| MongoProcessor.FalsyFilterNotValidated | app/server/core/mongo_processor.py:122-123 | falsy filters such as `0` or `[]` are never validated |
| MongoProcessor.Database.ExecuteMongoDBQuery | app/server/core/mongo_processor.py:93-156 | a rejected request returns the validation error and reaches no database; otherwise exactly one find request (filter defaulted, sort only when truthy, limit) is issued and the reply's documents are returned converted |
| MongoProcessor.Database.ExecuteAggregationPipeline | app/server/core/mongo_processor.py:159-201 | the same for aggregations: the collection name and pipeline are validated before anything reaches the database |
| MongoProcessor.AddFields | app/server/core/mongo_processor.py:241-246 | one document's fields are added only when not yet present |
| MongoProcessor.InferFields | app/server/core/mongo_processor.py:239-246 | the field table is the first-seen table of the sample |
| MongoProcessor.CollectionInfoOf | app/server/core/mongo_processor.py:226-252 | one collection's schema entry; CollectionSchema computes it by the source's loops and SchemaInfoTypes proves the field types it records |
| MongoProcessor.CollectionSchema | app/server/core/mongo_processor.py:226-252 | one collection's entry: count 0 and no fields when the sample is empty, else the count, the first-seen fields and three converted samples |
| MongoProcessor.BuildSchemaInfo | app/server/core/mongo_processor.py:258-263 | the `schema_info` loop maps each collection to its field → type table |
| MongoProcessor.GetDatabaseSchema | app/server/core/mongo_processor.py:204-273 | `get_database_schema` computes the specified report from the listed collections |
| MongoProcessor.SchemaOf | app/server/core/mongo_processor.py:221-252 | the collections part of the report; SchemaLookup proves which collections get an entry and from which documents |
| MongoProcessor.SchemaLookup | app/server/core/mongo_processor.py:221-252 | the report has an entry for exactly the listed collections not named `system.*`, each built from its own documents |
| MongoProcessor.SchemaInfo | app/server/core/mongo_processor.py:258-263 | the type table handed to detection; SchemaInfoTypes and HasKeyMapValues prove its keys and types |
| MongoProcessor.SchemaInfoTypes | app/server/core/mongo_processor.py:239-263 | detection sees each field typed by the Python type of its first occurrence among the sampled documents |
| MongoProcessor.HasKeyMapValues | app/server/core/mongo_processor.py:258-263 | mapping a table keeps its keys |
| MongoProcessor.DatabaseSchema | app/server/core/mongo_processor.py:204-273 | the report of `get_database_schema`; SchemaLookup and SchemaRelationships prove its two parts, and GetDatabaseSchema computes it |
| MongoProcessor.SchemaRelationships | app/server/core/mongo_processor.py:254-273 | the reported relationships have unique keys, meet 0.3, connect only reported (never `system.`) collections, and are empty when detection raises |
| FileProcessor.SanitizeCollectionName | app/server/core/file_processor.py:11-38 | every sanitized name passes `validate_collection_name` unchanged |
| FileProcessor.Candidate | app/server/core/file_processor.py:17-29 | the name before validation; CandidateShape proves its shape and CandidateOfShaped that a shaped name passes unchanged |
| FileProcessor.EnsureLeading | app/server/core/file_processor.py:24-25 | the leading-character fix; CandidateShape proves the candidate then starts with a letter or `_` |
| FileProcessor.CandidateShape | app/server/core/file_processor.py:17-29 | the name before validation is non-empty, starts with a letter or `_` and has only name characters |
| FileProcessor.FallbackName | app/server/core/file_processor.py:36 | the `collection_<n>` default; FallbackShape proves its shape and length |
| FileProcessor.FallbackShape | app/server/core/file_processor.py:36 | `collection_<n>` with 0 ≤ n < 100000 has that shape and at most 16 characters |
| FileProcessor.ShapedNameAccepted | app/server/core/file_processor.py:32-36 | a name of that shape is accepted exactly when it has at most 120 characters |
| FileProcessor.FallbackIffTooLong | app/server/core/file_processor.py:32-36 | the fallback is taken exactly when the candidate exceeds 120 characters |
| FileProcessor.CandidateOfShaped | app/server/core/file_processor.py:17-29 | a name of that shape passes every step unchanged |
| FileProcessor.SanitizeIdempotent | app/server/core/file_processor.py:11-38 | sanitizing a sanitized name returns it unchanged, whatever the hash |
| FileProcessor.ReplaceBadChars | app/server/core/file_processor.py:21 | the `re.sub` replacement; ReplaceBadCharsSpec proves it character by character |
| FileProcessor.ReplaceBadCharsSpec | app/server/core/file_processor.py:21 | each character outside `[A-Za-z0-9_-]` is replaced one for one by `_`; others are kept |
| FileProcessor.DropExtension | app/server/core/file_processor.py:17-18 | the `rsplit` extension removal; DropExtensionSpec proves what it keeps |
| FileProcessor.DropExtensionSpec | app/server/core/file_processor.py:17-18 | everything from the last `.` on is dropped; a name without `.` is kept |
| FileProcessor.SanitizeSpaceExample | app/server/core/file_processor.py:17-21 | `sales data.csv` becomes `sales_data` |
| FileProcessor.SanitizeDigitExample | app/server/core/file_processor.py:24-25 | `2024-report.json` becomes `_2024-report` |
| FileProcessor.SanitizeEmptyExample | app/server/core/file_processor.py:28-29 | `.csv` becomes `collection` |
| FileProcessor.MongoTypeName | app/server/core/file_processor.py:75-89 | the Python-type-to-MongoDB-type mapping; FieldTypeTable gives its value for each kind of value |
| FileProcessor.FieldTypeTable | app/server/core/file_processor.py:75-89 | a case summary of the definition, one line per branch: int→number, float→double, bool→boolean, list→array, dict→object, None→null, anything else→string |
| FileProcessor.AddFieldTypes | app/server/core/file_processor.py:72-89 | one document's fields are typed only when not yet present |
| FileProcessor.InferFieldTypes | app/server/core/file_processor.py:59-91 | `infer_field_types` builds the first-seen table of the documents |
| FileProcessor.InferredTypes | app/server/core/file_processor.py:59-91 | one entry per field name occurring in any document, none twice, typed by its first occurrence in document order; later documents never overwrite it |
| FileProcessor.FirstValueSome | app/server/core/file_processor.py:71-73 | a first value exists exactly when some document has the key |
| LlmProcessor.SelectProvider | app/server/core/llm_processor.py:344-362 | the routing decision; SelectProviderIff proves when each provider is chosen |
| LlmProcessor.SelectProviderIff | app/server/core/llm_processor.py:344-362 | OpenAI is chosen exactly when `OPENAI_API_KEY` is non-empty, or neither key is and the request asks for `openai`; otherwise Anthropic |
| LlmProcessor.InnerStart | app/server/core/llm_processor.py:277-281 | the text inside fences starts with whitespace or the body |
| LlmProcessor.DropOpening | app/server/core/llm_processor.py:277-280 | the two opening-fence tests; OpeningJson and OpeningPlain prove what they remove |
| LlmProcessor.OpeningJson | app/server/core/llm_processor.py:277-278 | a leading ```` ```json ```` is removed and the second test then finds no fence |
| LlmProcessor.OpeningPlain | app/server/core/llm_processor.py:279-280 | a leading ```` ``` ```` not followed by `json` is removed by the second test |
| LlmProcessor.DropClosing | app/server/core/llm_processor.py:281-282 | the closing-fence test; Closing proves what it removes |
| LlmProcessor.Closing | app/server/core/llm_processor.py:281-282 | a trailing ```` ``` ```` is removed |
| LlmProcessor.FencedKept | app/server/core/llm_processor.py:274 | the first strip keeps a fenced reply whole |
| LlmProcessor.StripFences | app/server/core/llm_processor.py:277-282 | the three fence tests in sequence; CleanJsonFenced, CleanFenced and CleanUnfenced prove their effect on fenced and unfenced replies |
| LlmProcessor.CleanReply | app/server/core/llm_processor.py:274-285 | the whole reply cleaning; CleanReplyRoundTrip proves it recovers the body of every fenced or unfenced reply |
| LlmProcessor.CleanJsonFenced | app/server/core/llm_processor.py:274-285 | a reply fenced with ```` ```json ```` and padded inside yields exactly its body |
| LlmProcessor.CleanFenced | app/server/core/llm_processor.py:274-285 | a reply fenced with ```` ``` ```` yields exactly its body |
| LlmProcessor.CleanUnfenced | app/server/core/llm_processor.py:274-285 | an unfenced padded reply yields exactly its body |
| LlmProcessor.CleanReplyRoundTrip | app/server/core/llm_processor.py:274-285 | all three: strip, the three fence removals in sequence, strip again recover the JSON body |
| LlmProcessor.Contains | app/server/core/llm_processor.py:140 | Python's `in` on the parsed result; MissingKeyErrorIff, RequiredKeysOfDict and RequiredKeysQuirks prove its effect on the key check |
| LlmProcessor.MissingKeyError | app/server/core/llm_processor.py:140-141 | the key check; MissingKeyErrorIff and RequiredKeysOfDict prove when it passes, RequiredKeysQuirks what it does on lists and numbers |
| LlmProcessor.MissingKeyErrorIff | app/server/core/llm_processor.py:140-141 | the key check (the same in both generators, lines 288-289) passes exactly when `key in result` holds for every required key |
| LlmProcessor.RequiredKeysOfDict | app/server/core/llm_processor.py:287-289 | a dict passes exactly when it has `query_type`, `collection` and `query` |
| LlmProcessor.RequiredKeysQuirks | app/server/core/llm_processor.py:140-141 | a list holding the three names passes; a number raises the `not iterable` type error |
| LlmProcessor.WithPrefix | app/server/core/llm_processor.py:145-146 | the re-raise with the provider's prefix; AttemptIff proves every failure message starts with it |
| LlmProcessor.Attempt | app/server/core/llm_processor.py:18-143 | one generator's steps; AttemptIff proves when it returns a query |
| LlmProcessor.GenerateWithOpenAI | app/server/core/llm_processor.py:9-147 | the OpenAI generator; AttemptIff proves when it returns a query and that its failures carry its prefix |
| LlmProcessor.GenerateWithAnthropic | app/server/core/llm_processor.py:150-294 | the Anthropic generator; AttemptIff proves when it returns a query and that its failures carry its prefix |
| LlmProcessor.AttemptIff | app/server/core/llm_processor.py:18-147 | a generator returns v exactly when its key is set, the call answered, the cleaned text parsed to v and v passed the key check; every failure message starts with the provider's prefix |
| LlmProcessor.GenerateMongoDBQuery | app/server/core/llm_processor.py:344-362 | the routed generation; GeneratedQueryChecked and NoKeyNoQuery prove what it can return |
| LlmProcessor.GeneratedQueryChecked | app/server/core/llm_processor.py:344-362 | whatever route is taken, a returned query passed the key check, and a returned dict has the three keys |
| LlmProcessor.NoKeyNoQuery | app/server/core/llm_processor.py:358-362 | with neither key set, the preferred generator is called and fails on its own missing key (lines 20-22 and 161-163), with its prefix |
| LlmProcessor.AppendFieldLines | app/server/core/llm_processor.py:312-317 | the field loop appends a line per field except `_id` |
| LlmProcessor.AppendCollection | app/server/core/llm_processor.py:307-319 | one collection's block: name, count (0 when missing), `Fields:`, field lines, blank line |
| LlmProcessor.AppendCollections | app/server/core/llm_processor.py:307-319 | the collection loop emits the blocks in order |
| LlmProcessor.AppendRelationshipLines | app/server/core/llm_processor.py:325-332 | the relationships loop appends one line per relationship, in order |
| LlmProcessor.AppendRelationships | app/server/core/llm_processor.py:322-339 | the relationships section: header, one line per relationship, blank line |
| LlmProcessor.FormatSchemaForPrompt | app/server/core/llm_processor.py:297-341 | `format_schema_for_prompt` joins with newlines exactly the specified lines |
| LlmProcessor.PromptLines | app/server/core/llm_processor.py:297-341 | the prompt's lines; FormatSchemaForPrompt joins them, EmptySchemaEmptyPrompt and RelationshipsHeaderIff prove their properties |
| LlmProcessor.EmptySchemaEmptyPrompt | app/server/tests/core/test_llm_processor.py:205-211 | an empty schema without relationships yields `""` |
| LlmProcessor.CollectionLines | app/server/core/llm_processor.py:307-319 | one collection's block of prompt lines; CollectionLinesNotHeader and FieldLinesIff prove what it lists |
| LlmProcessor.CollectionLinesNotHeader | app/server/core/llm_processor.py:307-319 | no line of a collection block is the relationships header |
| LlmProcessor.RelationshipsHeaderIff | app/server/core/llm_processor.py:322-339 | the relationships header appears exactly when the relationship list is non-empty |
| LlmProcessor.FieldLinesIff | app/server/core/llm_processor.py:312-317 | a field line is listed exactly for a field other than `_id` |
| LlmProcessor.RelationshipLine | app/server/core/llm_processor.py:324-338 | one relationship's prompt line; RelationshipLines proves the section has one such line per relationship, in order |
| LlmProcessor.RelationshipLines | app/server/core/llm_processor.py:324-338 | one line per relationship, in order |
| Values.FirstSeenSpec | app/server/core/file_processor.py:69-73 | the first-seen table has distinct keys, and each key maps to its first value, transformed |
| Values.AddFirstSeenLookup | app/server/core/mongo_processor.py:241-246 | adding one document's fields keeps existing entries and adds new keys' first values |
| Values.AddFirstSeenDistinct | app/server/core/mongo_processor.py:241-246 | adding fields keeps keys distinct |
| Values.FirstSeenExtends | app/server/core/file_processor.py:71-73 | later documents never overwrite an entry |
| Values.LookupMapValues | app/server/core/mongo_processor.py:258-263 | a mapped table maps each key's value |
| Text.StripPadded | app/server/core/llm_processor.py:285 | `strip()` removes exactly the surrounding whitespace |
| Text.JoinSplit | app/server/core/mongo_security.py:87 | joining the parts of `split('.')` gives back the string |
| Text.NatToStringLength | app/server/core/file_processor.py:36 | a number below 10^k has at most k digits |

## Left out

- Storage and the network: the pymongo connection singleton, `find`, `aggregate`, `count_documents`, `list_collection_names`, inserts, `get_collection_stats` and `drop_collection`. The database appears only as a reply parameter of the execute functions, as a snapshot (collection names with their documents) for the schema report, and as the oracle `Overlap` / `Sample` for value overlap.
- MongoProcessor.Database.ExecuteMongoDBQuery: the meaning of `limit`, `projection` and `sort` is left to the database; the model records them in the request it issues.
- MongoProcessor.GetDatabaseSchema: it requires distinct collection names in the snapshot, as `list_collection_names` returns; the `PyMongoError` path of the whole function is not modelled.
- MongoProcessor.ObjectIdFree counts tuples as free: `convert_objectids_to_strings` does not look into tuples, and the model keeps them unchanged too.
- The language-model calls, the prompt text and `json.loads`. The reply is a `Completion` parameter and parsing a `parse` parameter; the environment keys are parameters.
- Python's `hash` in `sanitize_collection_name` is a function parameter; only `hash(name) % 100000` is used, modelled with a non-negative remainder as in Python.
- Python's `str()` of a sample value and the `:.2f` rendering of a confidence in the prompt are parameters `show` and `fixed2`.
- LlmProcessor.FormatSchemaForPrompt: relationships given as dicts are not modelled, only relationship records. A schema map whose collections are named `collections` or `relationships` is not distinguished from a report.
- Floating point: scores and overlaps are exact reals, so rounding in `(a + b) / 2` and `matches / total` is not modelled.
- numpy `int64`/`float64` values are not part of `Value`; `MongoTypeName` still maps their type names.
- RelationshipDetector.DetectAllRelationships overwrites `confidence_score` on the name-pass record in place; the model returns a rescored copy, so aliasing of that record by the caller's list is not captured.
- CSV/JSON parsing with pandas, NaN handling and the drop-before-parse ordering of uploads, `collection_exists`, `insights.py`, `server.py` and the other pydantic response models are not part of this model.
- Duplicate keys: a dict is `Obj(fields: seq<(string, Value)>)`, which also admits duplicate keys; only inputs satisfying `Values.DistinctKeys` correspond to Python dicts. On duplicates the validators still check every entry, while lookups (`Lookup`, `KeyIndex`) take the first one.
- Logging is not modelled.
