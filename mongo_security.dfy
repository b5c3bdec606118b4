/**
 * The security gate in front of every MongoDB call: validation of
 * collection names, field paths, filter documents, aggregation pipelines
 * (with their `$lookup` stages), regular expressions, sort specifications
 * and projections. Each validator either passes its input through or
 * reports the first violation it meets, checking in the same order as the
 * application does.
 */
module MongoSecurity {
  import opened Text
  import opened Values

  /**
   * One constructor per place the validators raise `MongoSecurityError`.
   * `IllTyped` stands for a Python `TypeError` or `AttributeError`, which a
   * validator raises instead when handed a value of an unexpected type.
   */
  datatype Violation =
    | CollectionEmpty
    | CollectionTooLong
    | CollectionNullChar
    | CollectionReserved
    | CollectionDollar
    | CollectionBadChars
    | FieldEmpty
    | FieldNullChar
    | FieldPartEmpty
    | FieldPartDollar(part: string)
    | QueryNotDict
    | DangerousOperator(op: string)
    | OperatorsNotAllowed(op: string)
    | UnknownOperator(op: string)
    | LookupNotDict
    | LookupMissingFrom
    | LookupSystemCollection
    | LookupMissingAs
    | LookupAsNotString
    | LookupPipelineNotList
    | LookupLetNotDict
    | LookupLetEmptyName
    | LookupMissingJoinSpec
    | PipelineNotList
    | StageNotDict
    | StageNotSingleKey
    | DangerousStage(stage: string)
    | StageNoDollar(stage: string)
    | UnknownStage(stage: string)
    | RegexNotString
    | RegexTooLong
    | RegexTooManyGroups
    | RegexDangerousRepetition
    | SortNotDict
    | SortDirection(direction: Value)
    | ProjectionNotDict
    | ProjectionValue(flag: Value)
    | IllTyped

  /** Whether a violation is a `MongoSecurityError` rather than a Python type error. */
  predicate IsSecurityError(v: Violation) {
    !v.IllTyped?
  }

  /** The violations a collection-name check can report. */
  predicate CollectionError(v: Violation) {
    v.CollectionEmpty? || v.CollectionTooLong? || v.CollectionNullChar? || v.CollectionReserved?
    || v.CollectionDollar? || v.CollectionBadChars? || v.IllTyped?
  }

  /** The violations a field-name check can report. */
  predicate FieldError(v: Violation) {
    v.FieldEmpty? || v.FieldNullChar? || v.FieldPartEmpty? || v.FieldPartDollar? || v.IllTyped?
  }

  /** A validator that returns its (accepted) input. */
  datatype Result<T> = Ok(value: T) | Err(error: Violation)

  /** A validator that returns nothing on success. */
  datatype Outcome = Pass | Fail(error: Violation)

  function Verdict<T>(r: Result<T>): Outcome {
    if r.Ok? then Pass else Fail(r.error)
  }

  // ---------------------------------------------------------------------
  // Collection names
  // ---------------------------------------------------------------------

  const MaxCollectionNameLength := 120

  /** The character class `[a-zA-Z0-9_-]`. */
  predicate NameChar(c: char) {
    ('a' <= c <= 'z') || ('A' <= c <= 'Z') || ('0' <= c <= '9') || c == '_' || c == '-'
  }

  /** Length of the longest prefix made of name characters. */
  function NameRun(s: string): (n: nat)
    ensures n <= |s|
    ensures forall i :: 0 <= i < n ==> NameChar(s[i])
    ensures n < |s| ==> !NameChar(s[n])
  {
    if s == [] || !NameChar(s[0]) then 0 else 1 + NameRun(s[1..])
  }

  /**
   * `re.match(r'^[a-zA-Z0-9_-]+$', s)`. The `+` takes the longest run of
   * name characters (giving characters back cannot help, since `$` never
   * matches before a name character), and Python's `$` matches at the end
   * of the string or just before a newline that ends it.
   */
  predicate MatchesNamePattern(s: string) {
    var n := NameRun(s);
    n >= 1 && (n == |s| || (n == |s| - 1 && s[n] == '\n'))
  }

  predicate AllNameChars(t: string) {
    |t| >= 1 && forall i :: 0 <= i < |t| ==> NameChar(t[i])
  }

  /**
   * The names the validator lets through: at most 120 characters, all of
   * them letters, digits, `_` or `-`, except that one newline may end the name.
   */
  predicate CollectionNameAccepted(s: string) {
    |s| <= MaxCollectionNameLength
    && (AllNameChars(s) || (|s| >= 2 && s[|s| - 1] == '\n' && AllNameChars(s[..|s| - 1])))
  }

  lemma MatchesNamePatternIff(s: string)
    ensures MatchesNamePattern(s)
        <==> AllNameChars(s) || (|s| >= 2 && s[|s| - 1] == '\n' && AllNameChars(s[..|s| - 1]))
  {
    var n := NameRun(s);
    if AllNameChars(s) {
      assert n == |s|;
    } else if |s| >= 2 && s[|s| - 1] == '\n' && AllNameChars(s[..|s| - 1]) {
      assert forall i :: 0 <= i < |s| - 1 ==> s[..|s| - 1][i] == s[i];
      assert n == |s| - 1;
    }
    if MatchesNamePattern(s) && n == |s| - 1 {
      assert forall i :: 0 <= i < |s| - 1 ==> s[..|s| - 1][i] == s[i];
    }
  }

  /** The pattern already excludes a NUL, a `$` and the `system.` prefix. */
  lemma AcceptedNameShape(s: string)
    ensures CollectionNameAccepted(s) ==> '\0' !in s && '$' !in s && !StartsWith(s, "system.")
  {
    if CollectionNameAccepted(s) {
      assert forall i :: 0 <= i < |s| - 1 ==> s[..|s| - 1][i] == s[i];
      assert forall i :: 0 <= i < |s| ==> NameChar(s[i]) || (i == |s| - 1 && s[i] == '\n');
      if |s| >= 7 {
        assert s[..7][6] == s[6];
      }
    }
  }

  /** `validate_collection_name` on a string. */
  function ValidateCollectionName(name: string): (r: Result<string>)
    ensures r.Ok? <==> CollectionNameAccepted(name)
    ensures r.Ok? ==> r.value == name && !StartsWith(name, "system.")
    ensures r.Err? ==> CollectionError(r.error)
  {
    MatchesNamePatternIff(name);
    AcceptedNameShape(name);
    if name == "" then Err(CollectionEmpty)
    else if |name| > MaxCollectionNameLength then Err(CollectionTooLong)
    else if '\0' in name then Err(CollectionNullChar)
    else if StartsWith(name, "system.") then Err(CollectionReserved)
    else if '$' in name then Err(CollectionDollar)
    else if !MatchesNamePattern(name) then Err(CollectionBadChars)
    else Ok(name)
  }

  /**
   * `validate_collection_name` applied to an arbitrary Python value: a falsy
   * value is "empty"; a non-empty list, tuple or dict gets as far as the
   * length and NUL-membership tests and then fails on `startswith`.
   */
  function CheckCollectionValue(v: Value): (r: Outcome)
    ensures r == Pass <==> v.Str? && CollectionNameAccepted(v.s)
    ensures r.Fail? ==> CollectionError(r.error)
  {
    if !Truthy(v) then Fail(CollectionEmpty)
    else match v
      case Str(s) => Verdict(ValidateCollectionName(s))
      case Arr(e) =>
        if |e| > MaxCollectionNameLength then Fail(CollectionTooLong)
        else if Str("\0") in e then Fail(CollectionNullChar)
        else Fail(IllTyped)
      case Tuple(t) =>
        if |t| > MaxCollectionNameLength then Fail(CollectionTooLong)
        else if Str("\0") in t then Fail(CollectionNullChar)
        else Fail(IllTyped)
      case Obj(f) =>
        if |f| > MaxCollectionNameLength then Fail(CollectionTooLong)
        else if HasKey(f, "\0") then Fail(CollectionNullChar)
        else Fail(IllTyped)
      case _ => Fail(IllTyped)
  }

  // ---------------------------------------------------------------------
  // Field names
  // ---------------------------------------------------------------------

  /** Every dot-separated part is non-empty and does not start with `$`. */
  predicate PartsOk(parts: seq<string>) {
    forall k :: 0 <= k < |parts| ==> parts[k] != "" && parts[k][0] != '$'
  }

  /** The loop over the parts of a field path. */
  function CheckFieldParts(parts: seq<string>): (r: Outcome)
    ensures r == Pass <==> PartsOk(parts)
    ensures r.Fail? ==> r.error.FieldPartEmpty? || r.error.FieldPartDollar?
  {
    if parts == [] then Pass
    else if parts[0] == "" then Fail(FieldPartEmpty)
    else if StartsWith(parts[0], "$") then Fail(FieldPartDollar(parts[0]))
    else CheckFieldParts(parts[1..])
  }

  /**
   * Character-level reading of the field path rule: non-empty, neither
   * starting nor ending with `.`, not starting with `$`, and every `.` is
   * followed by a character other than `.` and `$`.
   */
  predicate DotPathOk(s: string) {
    |s| > 0 && s[0] != '.' && s[0] != '$' && s[|s| - 1] != '.'
    && forall i :: 0 <= i < |s| - 1 && s[i] == '.' ==> s[i + 1] != '.' && s[i + 1] != '$'
  }

  predicate FieldPathAccepted(s: string) {
    '\0' !in s && DotPathOk(s)
  }

  lemma PartsOkCons(a: string, rest: seq<string>)
    ensures PartsOk([a] + rest) <==> a != "" && a[0] != '$' && PartsOk(rest)
  {
    var parts := [a] + rest;
    assert parts[0] == a;
    assert forall k :: 0 <= k < |rest| ==> parts[k + 1] == rest[k];
    if a != "" && a[0] != '$' && PartsOk(rest) {
      forall k | 0 <= k < |parts|
        ensures parts[k] != "" && parts[k][0] != '$'
      {
        if k > 0 {
          assert parts[k] == rest[k - 1];
        }
      }
    }
  }

  lemma {:induction false} DotPathDecompose(s: string)
    requires '.' in s
    ensures DotPathOk(s)
        <==> IndexOf(s, '.') >= 1 && s[0] != '$' && DotPathOk(s[IndexOf(s, '.') + 1..])
  {
    var i := IndexOf(s, '.');
    var t := s[i + 1..];
    if DotPathOk(s) {
      assert i < |s| - 1;
      assert t[0] == s[i + 1];
      forall k | 0 <= k < |t| - 1 && t[k] == '.'
        ensures t[k + 1] != '.' && t[k + 1] != '$'
      {
        assert s[i + 1 + k] == '.';
        assert t[k + 1] == s[i + 1 + k + 1];
      }
      assert t[|t| - 1] == s[|s| - 1];
    }
    if i >= 1 && s[0] != '$' && DotPathOk(t) {
      forall k | 0 <= k < |s| - 1 && s[k] == '.'
        ensures s[k + 1] != '.' && s[k + 1] != '$'
      {
        if k == i {
          assert s[k + 1] == t[0];
        } else {
          assert t[k - i - 1] == '.';
          assert s[k + 1] == t[k - i];
        }
      }
      assert t[|t| - 1] == s[|s| - 1];
    }
  }

  /** Splitting at `.` and checking the parts is the character-level rule. */
  lemma {:induction false} PartsOkIff(s: string)
    ensures PartsOk(Split(s, '.')) <==> DotPathOk(s)
    decreases |s|
  {
    if '.' !in s {
      SplitNoSeparator(s, '.');
      PartsOkCons(s, []);
      assert [s] + [] == [s];
    } else {
      var i := IndexOf(s, '.');
      SplitAtSeparator(s, '.');
      PartsOkCons(s[..i], Split(s[i + 1..], '.'));
      PartsOkIff(s[i + 1..]);
      DotPathDecompose(s);
      if i >= 1 {
        assert s[..i][0] == s[0];
      }
    }
  }

  /** `validate_field_name` on a string. */
  function ValidateFieldName(name: string): (r: Result<string>)
    ensures r.Ok? <==> FieldPathAccepted(name)
    ensures r.Ok? ==> r.value == name
    ensures r.Err? ==> FieldError(r.error)
  {
    PartsOkIff(name);
    if name == "" then Err(FieldEmpty)
    else if '\0' in name then Err(FieldNullChar)
    else match CheckFieldParts(Split(name, '.'))
      case Fail(e) => Err(e)
      case Pass => Ok(name)
  }

  /**
   * `validate_field_name` applied to an arbitrary Python value: containers
   * get as far as the NUL-membership test, then fail on `split`.
   */
  function CheckFieldValue(v: Value): (r: Outcome)
    ensures r == Pass <==> v.Str? && FieldPathAccepted(v.s)
    ensures r.Fail? ==> FieldError(r.error)
  {
    if !Truthy(v) then Fail(FieldEmpty)
    else match v
      case Str(s) => Verdict(ValidateFieldName(s))
      case Arr(e) => if Str("\0") in e then Fail(FieldNullChar) else Fail(IllTyped)
      case Tuple(t) => if Str("\0") in t then Fail(FieldNullChar) else Fail(IllTyped)
      case Obj(f) => if HasKey(f, "\0") then Fail(FieldNullChar) else Fail(IllTyped)
      case _ => Fail(IllTyped)
  }

  // ---------------------------------------------------------------------
  // Filter documents
  // ---------------------------------------------------------------------

  const DangerousOperators: seq<string> := ["$where"]

  const AllowedOperators: seq<string> := [
    "$eq", "$ne", "$gt", "$gte", "$lt", "$lte",
    "$in", "$nin", "$and", "$or", "$not", "$nor",
    "$exists", "$type", "$regex", "$options",
    "$all", "$elemMatch", "$size",
    "$mod", "$text", "$search"
  ]

  /** A key the filter validator lets through. */
  predicate KeyAccepted(key: string, allowOperators: bool) {
    if StartsWith(key, "$") then allowOperators && key in AllowedOperators
    else FieldPathAccepted(key)
  }

  /** The checks on one key of a filter document. */
  function CheckQueryKey(key: string, allowOperators: bool): (r: Outcome)
    ensures r == Pass <==> KeyAccepted(key, allowOperators)
    ensures key in DangerousOperators ==> r == Fail(DangerousOperator(key))
  {
    if key in DangerousOperators then Fail(DangerousOperator(key))
    else if StartsWith(key, "$") then
      if !allowOperators then Fail(OperatorsNotAllowed(key))
      else if key !in AllowedOperators then Fail(UnknownOperator(key))
      else Pass
    else Verdict(ValidateFieldName(key))
  }

  /**
   * `validate_query_structure`: every key is checked, and the validator
   * descends (with operators allowed) into values that are dicts and into
   * the dict elements of values that are lists.
   */
  function ValidateQueryStructure(query: Value, allowOperators: bool): Outcome
    decreases query, 1, 0
  {
    if !query.Obj? then Fail(QueryNotDict) else CheckQueryFields(query, 0, allowOperators)
  }

  function CheckQueryFields(query: Value, i: nat, allowOperators: bool): Outcome
    requires query.Obj? && i <= |query.fields|
    decreases query, 0, |query.fields| - i
  {
    if i == |query.fields| then Pass
    else match CheckQueryKey(query.fields[i].0, allowOperators)
      case Fail(e) => Fail(e)
      case Pass =>
        match CheckNestedQuery(query.fields[i].1)
        case Fail(e) => Fail(e)
        case Pass => CheckQueryFields(query, i + 1, allowOperators)
  }

  function CheckNestedQuery(value: Value): Outcome
    decreases value, 2, 0
  {
    if value.Obj? then ValidateQueryStructure(value, true)
    else if value.Arr? then CheckQueryItems(value, 0)
    else Pass
  }

  function CheckQueryItems(list: Value, j: nat): Outcome
    requires list.Arr? && j <= |list.elems|
    decreases list, 0, |list.elems| - j
  {
    if j == |list.elems| then Pass
    else if !list.elems[j].Obj? then CheckQueryItems(list, j + 1)
    else match ValidateQueryStructure(list.elems[j], true)
      case Fail(e) => Fail(e)
      case Pass => CheckQueryItems(list, j + 1)
  }

  /**
   * The filters the validator accepts: a dict whose keys are accepted and
   * whose dict values, and dict elements of list values, are accepted
   * filters with operators allowed. Anything else inside (a list nested in
   * a list, a scalar) is not looked at.
   */
  predicate QueryAccepted(q: Value, allowOperators: bool)
    decreases q, 1
  {
    q.Obj?
    && forall i :: 0 <= i < |q.fields| ==>
         KeyAccepted(q.fields[i].0, allowOperators) && NestedAccepted(q.fields[i].1)
  }

  predicate NestedAccepted(v: Value)
    decreases v, 2
  {
    (v.Obj? ==> QueryAccepted(v, true))
    && (v.Arr? ==> forall j :: 0 <= j < |v.elems| ==> v.elems[j].Obj? ==> QueryAccepted(v.elems[j], true))
  }

  /** The validator passes exactly the accepted filters. */
  lemma {:induction false} QueryIff(q: Value, allowOperators: bool)
    ensures ValidateQueryStructure(q, allowOperators) == Pass <==> QueryAccepted(q, allowOperators)
    decreases q, 1, 0
  {
    if q.Obj? {
      QueryFieldsIff(q, 0, allowOperators);
    }
  }

  lemma {:induction false} QueryFieldsIff(q: Value, i: nat, allowOperators: bool)
    requires q.Obj? && i <= |q.fields|
    ensures CheckQueryFields(q, i, allowOperators) == Pass
        <==> forall k :: i <= k < |q.fields| ==>
               KeyAccepted(q.fields[k].0, allowOperators) && NestedAccepted(q.fields[k].1)
    decreases q, 0, |q.fields| - i
  {
    if i < |q.fields| {
      NestedIff(q.fields[i].1);
      QueryFieldsIff(q, i + 1, allowOperators);
    }
  }

  lemma {:induction false} NestedIff(v: Value)
    ensures CheckNestedQuery(v) == Pass <==> NestedAccepted(v)
    decreases v, 2, 0
  {
    if v.Obj? {
      QueryIff(v, true);
    } else if v.Arr? {
      QueryItemsIff(v, 0);
    }
  }

  lemma {:induction false} QueryItemsIff(list: Value, j: nat)
    requires list.Arr? && j <= |list.elems|
    ensures CheckQueryItems(list, j) == Pass
        <==> forall k :: j <= k < |list.elems| ==> list.elems[k].Obj? ==> QueryAccepted(list.elems[k], true)
    decreases list, 0, |list.elems| - j
  {
    if j < |list.elems| {
      if list.elems[j].Obj? {
        QueryIff(list.elems[j], true);
      }
      QueryItemsIff(list, j + 1);
    }
  }

  /** A `$where` key anywhere the validator looks makes it fail. */
  lemma WhereRejected(q: Value, allowOperators: bool, i: nat)
    requires q.Obj? && i < |q.fields| && q.fields[i].0 == "$where"
    ensures ValidateQueryStructure(q, allowOperators).Fail?
  {
    QueryIff(q, allowOperators);
  }

  /** A `$`-key is rejected at top level when operators are not allowed. */
  lemma OperatorsRejectedWhenDisallowed(q: Value, i: nat)
    requires q.Obj? && i < |q.fields| && StartsWith(q.fields[i].0, "$")
    ensures ValidateQueryStructure(q, false).Fail?
  {
    QueryIff(q, false);
  }

  // ---------------------------------------------------------------------
  // Aggregation pipelines and $lookup stages
  // ---------------------------------------------------------------------

  const DangerousStages: seq<string> := ["$function", "$accumulator"]

  const AllowedStages: seq<string> := [
    "$match", "$group", "$project", "$sort", "$limit", "$skip",
    "$unwind", "$lookup", "$addFields", "$count", "$sortByCount",
    "$facet", "$bucket", "$bucketAuto", "$sample", "$replaceRoot",
    "$out", "$merge", "$geoNear", "$graphLookup", "$redact",
    "$replaceWith", "$set", "$unset"
  ]

  /** `validate_aggregation_pipeline` */
  function ValidateAggregationPipeline(pipeline: Value): (r: Result<Value>)
    ensures r.Ok? ==> r.value == pipeline
    decreases pipeline, 1, 0
  {
    if !pipeline.Arr? then Err(PipelineNotList)
    else match CheckStages(pipeline, 0)
      case Fail(e) => Err(e)
      case Pass => Ok(pipeline)
  }

  function CheckStages(pipeline: Value, i: nat): Outcome
    requires pipeline.Arr? && i <= |pipeline.elems|
    decreases pipeline, 0, |pipeline.elems| - i
  {
    if i == |pipeline.elems| then Pass
    else match CheckStage(pipeline.elems[i])
      case Fail(e) => Fail(e)
      case Pass => CheckStages(pipeline, i + 1)
  }

  /** The checks on one stage, in order; only a `$lookup` body is looked into. */
  function CheckStage(stage: Value): Outcome
    decreases stage, 2, 0
  {
    if !stage.Obj? then Fail(StageNotDict)
    else if |stage.fields| != 1 then Fail(StageNotSingleKey)
    else
      var name := stage.fields[0].0;
      if name in DangerousStages then Fail(DangerousStage(name))
      else if !StartsWith(name, "$") then Fail(StageNoDollar(name))
      else if name !in AllowedStages then Fail(UnknownStage(name))
      else if name == "$lookup" then Verdict(ValidateLookupStage(stage.fields[0].1))
      else Pass
  }

  /** `validate_lookup_stage`: the target checks, then the join specification. */
  function ValidateLookupStage(lookup: Value): (r: Result<Value>)
    ensures r.Ok? ==> r.value == lookup
    decreases lookup, 0, 1
  {
    if !lookup.Obj? then Err(LookupNotDict)
    else match CheckLookupTarget(lookup.fields)
      case Fail(e) => Err(e)
      case Pass =>
        match CheckJoinSpec(lookup)
        case Fail(e) => Err(e)
        case Pass => Ok(lookup)
  }

  /** The `from` collection, then the `as` field of a `$lookup` body. */
  function CheckLookupTarget(fs: seq<(string, Value)>): Outcome {
    if !HasKey(fs, "from") then Fail(LookupMissingFrom)
    else
      var from := fs[KeyIndex(fs, "from")].1;
      match CheckCollectionValue(from)
      case Fail(e) => Fail(e)
      case Pass =>
        if from.Str? && StartsWith(from.s, "system.") then Fail(LookupSystemCollection)
        else if !HasKey(fs, "as") then Fail(LookupMissingAs)
        else
          var asField := fs[KeyIndex(fs, "as")].1;
          if !asField.Str? || asField.s == "" then Fail(LookupAsNotString)
          else Verdict(ValidateFieldName(asField.s))
  }

  /** The optional-field check: absent passes, present must be a valid path. */
  function CheckOptionalField(fs: seq<(string, Value)>, k: string): Outcome {
    if HasKey(fs, k) then CheckFieldValue(fs[KeyIndex(fs, k)].1) else Pass
  }

  /**
   * The join specification: the equality form when `localField` or
   * `foreignField` is present, else the pipeline form.
   */
  function CheckJoinSpec(lookup: Value): Outcome
    requires lookup.Obj?
    decreases lookup, 0, 0
  {
    var fs := lookup.fields;
    if HasKey(fs, "localField") || HasKey(fs, "foreignField") then
      match CheckOptionalField(fs, "localField")
      case Fail(e) => Fail(e)
      case Pass => CheckOptionalField(fs, "foreignField")
    else if HasKey(fs, "pipeline") then
      var nested := fs[KeyIndex(fs, "pipeline")].1;
      if !nested.Arr? then Fail(LookupPipelineNotList)
      else match ValidateAggregationPipeline(nested)
        case Err(e) => Fail(e)
        case Ok(_) => if HasKey(fs, "let") then CheckLetVars(fs[KeyIndex(fs, "let")].1) else Pass
    else Fail(LookupMissingJoinSpec)
  }

  /** The `let` variables: a dict without an empty name. */
  function CheckLetVars(letVars: Value): Outcome {
    if !letVars.Obj? then Fail(LookupLetNotDict)
    else if HasKey(letVars.fields, "") then Fail(LookupLetEmptyName)
    else Pass
  }

  /** The pipelines the validator accepts: a list of accepted stages. */
  predicate PipelineAccepted(p: Value)
    decreases p, 1
  {
    p.Arr? && forall i :: 0 <= i < |p.elems| ==> StageAccepted(p.elems[i])
  }

  /** A single-key dict whose key is an allowed stage; a `$lookup` body must be accepted. */
  predicate StageAccepted(stage: Value)
    decreases stage, 2
  {
    stage.Obj? && |stage.fields| == 1 && stage.fields[0].0 in AllowedStages
    && (stage.fields[0].0 == "$lookup" ==> LookupAccepted(stage.fields[0].1))
  }

  /** A valid `from` collection name and a valid `as` path. */
  predicate LookupTargetAccepted(fs: seq<(string, Value)>) {
    HasKey(fs, "from") && CheckCollectionValue(fs[KeyIndex(fs, "from")].1) == Pass
    && HasKey(fs, "as") && fs[KeyIndex(fs, "as")].1.Str? && FieldPathAccepted(fs[KeyIndex(fs, "as")].1.s)
  }

  /**
   * An accepted `$lookup` body: an accepted target, and either the equality
   * form (whichever of `localField` and `foreignField` are present are valid
   * paths) or the pipeline form (an accepted pipeline, and a `let`, if
   * present, that is a dict without an empty variable name).
   */
  predicate LookupAccepted(ls: Value)
    decreases ls, 0
  {
    ls.Obj? && LookupTargetAccepted(ls.fields)
    && var fs := ls.fields;
    if HasKey(fs, "localField") || HasKey(fs, "foreignField") then
      (HasKey(fs, "localField") ==> CheckFieldValue(fs[KeyIndex(fs, "localField")].1) == Pass)
      && (HasKey(fs, "foreignField") ==> CheckFieldValue(fs[KeyIndex(fs, "foreignField")].1) == Pass)
    else
      HasKey(fs, "pipeline") && PipelineAccepted(fs[KeyIndex(fs, "pipeline")].1)
      && (HasKey(fs, "let") ==> fs[KeyIndex(fs, "let")].1.Obj? && !HasKey(fs[KeyIndex(fs, "let")].1.fields, ""))
  }

  lemma LookupTargetIff(fs: seq<(string, Value)>)
    ensures CheckLookupTarget(fs) == Pass <==> LookupTargetAccepted(fs)
    ensures CheckLookupTarget(fs) != Fail(LookupSystemCollection)
  {
    if HasKey(fs, "from") {
      var from := fs[KeyIndex(fs, "from")].1;
      if from.Str? {
        AcceptedNameShape(from.s);
      }
    }
  }

  /** The validator passes exactly the accepted pipelines. */
  lemma {:induction false} PipelineIff(p: Value)
    ensures ValidateAggregationPipeline(p).Ok? <==> PipelineAccepted(p)
    decreases p, 1, 0
  {
    if p.Arr? {
      StagesIff(p, 0);
    }
  }

  lemma {:induction false} StagesIff(p: Value, i: nat)
    requires p.Arr? && i <= |p.elems|
    ensures CheckStages(p, i) == Pass <==> forall k :: i <= k < |p.elems| ==> StageAccepted(p.elems[k])
    decreases p, 0, |p.elems| - i
  {
    if i < |p.elems| {
      var stage := p.elems[i];
      StagesStep(p, i);
      StageIff(stage);
      StagesIff(p, i + 1);
      if CheckStage(stage) == Pass {
        assert CheckStages(p, i) == CheckStages(p, i + 1);
        assert StageAccepted(stage);
      } else {
        assert CheckStages(p, i) != Pass;
        assert !StageAccepted(p.elems[i]);
      }
    }
  }

  /** One step of the stage loop: the first failing stage decides, a passing one moves on. */
  lemma StagesStep(p: Value, i: nat)
    requires p.Arr? && i < |p.elems|
    ensures var r := CheckStage(p.elems[i]);
      CheckStages(p, i) == if r.Fail? then r else CheckStages(p, i + 1)
  {
  }

  lemma {:induction false} StageIff(stage: Value)
    ensures CheckStage(stage) == Pass <==> StageAccepted(stage)
    decreases stage, 2, 0
  {
    if stage.Obj? && |stage.fields| == 1 {
      var name := stage.fields[0].0;
      if name in AllowedStages {
        AllowedStageShape(name);
        if name == "$lookup" {
          LookupIff(stage.fields[0].1);
        }
      }
    }
  }

  /** Every allowed stage name starts with `$` and none is dangerous. */
  lemma AllowedStageShape(name: string)
    requires name in AllowedStages
    ensures name !in DangerousStages && StartsWith(name, "$")
  {
  }

  lemma {:induction false} LookupIff(ls: Value)
    ensures ValidateLookupStage(ls).Ok? <==> LookupAccepted(ls)
    decreases ls, 0, 1
  {
    if ls.Obj? {
      LookupTargetIff(ls.fields);
      JoinSpecIff(ls);
    }
  }

  lemma {:induction false} JoinSpecIff(ls: Value)
    requires ls.Obj?
    ensures CheckJoinSpec(ls) == Pass
        <==> var fs := ls.fields;
             if HasKey(fs, "localField") || HasKey(fs, "foreignField") then
               (HasKey(fs, "localField") ==> CheckFieldValue(fs[KeyIndex(fs, "localField")].1) == Pass)
               && (HasKey(fs, "foreignField") ==> CheckFieldValue(fs[KeyIndex(fs, "foreignField")].1) == Pass)
             else
               HasKey(fs, "pipeline") && PipelineAccepted(fs[KeyIndex(fs, "pipeline")].1)
               && (HasKey(fs, "let") ==> fs[KeyIndex(fs, "let")].1.Obj? && !HasKey(fs[KeyIndex(fs, "let")].1.fields, ""))
    decreases ls, 0, 0
  {
    if HasKey(ls.fields, "pipeline") {
      PipelineIff(ls.fields[KeyIndex(ls.fields, "pipeline")].1);
    }
  }

  /**
   * The explicit `system.` test of `validate_lookup_stage` never fires: the
   * collection-name check before it already rejects every such name, at
   * any nesting depth.
   */
  lemma {:induction false} NoSystemLookupError(p: Value)
    ensures ValidateAggregationPipeline(p) != Err(LookupSystemCollection)
    decreases p, 1, 0
  {
    if p.Arr? {
      NoSystemLookupErrorStages(p, 0);
    }
  }

  lemma {:induction false} NoSystemLookupErrorStages(p: Value, i: nat)
    requires p.Arr? && i <= |p.elems|
    ensures CheckStages(p, i) != Fail(LookupSystemCollection)
    decreases p, 0, |p.elems| - i
  {
    if i < |p.elems| {
      StagesStep(p, i);
      NoSystemLookupErrorStage(p.elems[i]);
      NoSystemLookupErrorStages(p, i + 1);
    }
  }

  lemma {:induction false} NoSystemLookupErrorStage(stage: Value)
    ensures CheckStage(stage) != Fail(LookupSystemCollection)
    decreases stage, 2, 0
  {
    if stage.Obj? && |stage.fields| == 1 {
      NoSystemLookupErrorLookup(stage.fields[0].1);
    }
  }

  lemma {:induction false} NoSystemLookupErrorLookup(ls: Value)
    ensures ValidateLookupStage(ls) != Err(LookupSystemCollection)
    decreases ls, 0, 1
  {
    if ls.Obj? {
      LookupTargetIff(ls.fields);
      if HasKey(ls.fields, "pipeline") {
        NoSystemLookupError(ls.fields[KeyIndex(ls.fields, "pipeline")].1);
      }
    }
  }

  /** A stage that is not a single-key dict naming an allowed stage fails the whole pipeline. */
  lemma BadStageRejectsPipeline(p: Value, i: nat)
    requires p.Arr? && i < |p.elems|
    requires !p.elems[i].Obj? || |p.elems[i].fields| != 1 || p.elems[i].fields[0].0 !in AllowedStages
    ensures ValidateAggregationPipeline(p).Err?
  {
    PipelineIff(p);
  }

  /**
   * Only `$lookup` bodies are inspected: replacing the body of any other
   * stage leaves the verdict, and the violation reported, unchanged.
   */
  lemma {:induction false} NonLookupBodyIgnored(p: Value, i: nat, name: string, body: Value)
    requires p.Arr? && i < |p.elems| && name != "$lookup"
    requires p.elems[i].Obj? && |p.elems[i].fields| == 1 && p.elems[i].fields[0].0 == name
    ensures Verdict(ValidateAggregationPipeline(Arr(p.elems[i := Obj([(name, body)])])))
         == Verdict(ValidateAggregationPipeline(p))
  {
    var q := Arr(p.elems[i := Obj([(name, body)])]);
    assert CheckStage(q.elems[i]) == CheckStage(p.elems[i]);
    StagesSame(p, q, 0);
  }

  lemma {:induction false} StagesSame(p: Value, q: Value, j: nat)
    requires p.Arr? && q.Arr? && |p.elems| == |q.elems| && j <= |p.elems|
    requires forall k :: 0 <= k < |p.elems| ==> CheckStage(p.elems[k]) == CheckStage(q.elems[k])
    ensures CheckStages(p, j) == CheckStages(q, j)
    decreases |p.elems| - j
  {
    if j < |p.elems| {
      StagesStep(p, j);
      StagesStep(q, j);
      StagesSame(p, q, j + 1);
    }
  }

  // ---------------------------------------------------------------------
  // Regular expressions
  // ---------------------------------------------------------------------

  const MaxRegexLength := 1000
  const MaxRegexGroups := 20

  predicate NoNewline(s: string, lo: int, hi: int)
    requires 0 <= lo <= hi <= |s|
  {
    forall k :: lo <= k < hi ==> s[k] != '\n'
  }

  /**
   * `re.search(r"(.+C){3,}", s)` for the literal character `C`: three
   * occurrences of `C` on one line, each preceded by at least one character
   * that follows the previous occurrence (`.` matches anything but a newline).
   */
  predicate RepeatedRun(s: string, c: char) {
    exists q1, q2, q3 | 1 <= q1 < |s| && q1 + 2 <= q2 < |s| && q2 + 2 <= q3 < |s| ::
      s[q1] == c && s[q2] == c && s[q3] == c && NoNewline(s, q1 - 1, q3)
  }

  /** The four dangerous-repetition patterns of `sanitize_regex_pattern`. */
  predicate DangerousRepetition(s: string) {
    RepeatedRun(s, '*') || RepeatedRun(s, '+') || ContainsSub(s, "(.*)*") || ContainsSub(s, "(.+)+")
  }

  /** `sanitize_regex_pattern` */
  function SanitizeRegexPattern(pattern: Value): (r: Result<string>)
    ensures r.Ok? <==> (pattern.Str? && |pattern.s| <= MaxRegexLength
                        && Count(pattern.s, '(') <= MaxRegexGroups && !DangerousRepetition(pattern.s))
    ensures r.Ok? ==> r.value == pattern.s
  {
    if !pattern.Str? then Err(RegexNotString)
    else if |pattern.s| > MaxRegexLength then Err(RegexTooLong)
    else if Count(pattern.s, '(') > MaxRegexGroups then Err(RegexTooManyGroups)
    else if DangerousRepetition(pattern.s) then Err(RegexDangerousRepetition)
    else Ok(pattern.s)
  }

  // ---------------------------------------------------------------------
  // Sort specifications and projections
  // ---------------------------------------------------------------------

  /** `direction in [1, -1]` under Python equality (so `True` counts as 1). */
  predicate IsSortDirection(v: Value) {
    NumericValue(v) == Some(1.0) || NumericValue(v) == Some(-1.0)
  }

  /** `value in [0, 1, True, False]` under Python equality. */
  predicate IsProjectionFlag(v: Value) {
    NumericValue(v) == Some(0.0) || NumericValue(v) == Some(1.0)
  }

  function CheckSortEntries(fs: seq<(string, Value)>): (r: Outcome)
    ensures r == Pass
        <==> forall i :: 0 <= i < |fs| ==> FieldPathAccepted(fs[i].0) && IsSortDirection(fs[i].1)
  {
    if fs == [] then Pass
    else match ValidateFieldName(fs[0].0)
      case Err(e) => Fail(e)
      case Ok(_) =>
        if !IsSortDirection(fs[0].1) then Fail(SortDirection(fs[0].1))
        else CheckSortEntries(fs[1..])
  }

  /** `validate_sort_specification` */
  function ValidateSortSpecification(spec: Value): (r: Result<Value>)
    ensures r.Ok? <==> spec.Obj? && forall i :: 0 <= i < |spec.fields| ==>
                         FieldPathAccepted(spec.fields[i].0) && IsSortDirection(spec.fields[i].1)
    ensures r.Ok? ==> r.value == spec
  {
    if !spec.Obj? then Err(SortNotDict)
    else match CheckSortEntries(spec.fields)
      case Fail(e) => Err(e)
      case Pass => Ok(spec)
  }

  function CheckProjectionEntries(fs: seq<(string, Value)>): (r: Outcome)
    ensures r == Pass
        <==> forall i :: 0 <= i < |fs| ==> FieldPathAccepted(fs[i].0) && IsProjectionFlag(fs[i].1)
  {
    if fs == [] then Pass
    else match ValidateFieldName(fs[0].0)
      case Err(e) => Fail(e)
      case Ok(_) =>
        if !IsProjectionFlag(fs[0].1) then Fail(ProjectionValue(fs[0].1))
        else CheckProjectionEntries(fs[1..])
  }

  /** `validate_projection` */
  function ValidateProjection(projection: Value): (r: Result<Value>)
    ensures r.Ok? <==> projection.Obj? && forall i :: 0 <= i < |projection.fields| ==>
                         FieldPathAccepted(projection.fields[i].0) && IsProjectionFlag(projection.fields[i].1)
    ensures r.Ok? ==> r.value == projection
  {
    if !projection.Obj? then Err(ProjectionNotDict)
    else match CheckProjectionEntries(projection.fields)
      case Fail(e) => Err(e)
      case Pass => Ok(projection)
  }
}
