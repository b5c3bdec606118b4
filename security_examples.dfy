/**
 * The validators on the concrete inputs of the repository's security tests,
 * together with the corner cases the general lemmas describe.
 */
module SecurityExamples {
  import opened Text
  import opened Values
  import opened MongoSecurity

  // The fixtures of the cross-collection tests.

  function MatchMoney(): Value {
    Obj([("$match", Obj([("money", Obj([("$gte", Int(500))]))]))])
  }

  function EqualityLookupBody(): Value {
    Obj([("from", Str("products")), ("localField", Str("city")),
         ("foreignField", Str("location")), ("as", Str("local_products"))])
  }

  function MatchNonEmpty(): Value {
    Obj([("$match", Obj([("local_products", Obj([("$ne", Arr([]))]))]))])
  }

  function NestedPipeline(): Value {
    Arr([
      Obj([("$match", Obj([("$expr", Obj([("$lte", Arr([Str("$price"), Str("$$user_money")]))]))]))]),
      Obj([("$match", Obj([("price", Obj([("$gte", Int(500))]))]))])
    ])
  }

  function PipelineLookupBody(): Value {
    Obj([("from", Str("products")),
         ("let", Obj([("user_money", Str("$money"))])),
         ("pipeline", NestedPipeline()),
         ("as", Str("affordable_products"))])
  }

  /** A short name made of name characters is an accepted collection name. */
  lemma PlainNameAccepted(s: string)
    requires 1 <= |s| <= MaxCollectionNameLength && forall i :: 0 <= i < |s| ==> NameChar(s[i])
    ensures CollectionNameAccepted(s)
  {
  }

  /** A name without dots, NUL or a leading `$` is an accepted field path. */
  lemma PlainFieldAccepted(s: string)
    requires s != [] && s[0] != '$' && forall i :: 0 <= i < |s| ==> s[i] != '.' && s[i] != '\0'
    ensures FieldPathAccepted(s)
  {
  }

  lemma ProductsName()
    ensures CollectionNameAccepted("products")
  {
    PlainNameAccepted("products");
  }

  lemma FixtureFields()
    ensures FieldPathAccepted("local_products") && FieldPathAccepted("affordable_products")
    ensures FieldPathAccepted("products_list") && FieldPathAccepted("city") && FieldPathAccepted("location")
  {
    PlainFieldAccepted("local_products");
    PlainFieldAccepted("affordable_products");
    PlainFieldAccepted("products_list");
    PlainFieldAccepted("city");
    PlainFieldAccepted("location");
  }

  lemma AllowedLookupStage()
    ensures "$lookup" in AllowedStages && "$lookup" !in DangerousStages
    ensures "$match" in AllowedStages && "$match" !in DangerousStages
  {
  }

  lemma EqualityLookupTarget()
    ensures CheckLookupTarget(EqualityLookupBody().fields) == Pass
  {
    var fs := EqualityLookupBody().fields;
    assert KeyIndex(fs, "from") == 0 && KeyIndex(fs, "as") == 3;
    ProductsName();
    FixtureFields();
  }

  lemma EqualityLookupJoin()
    ensures CheckJoinSpec(EqualityLookupBody()) == Pass
  {
    var fs := EqualityLookupBody().fields;
    assert KeyIndex(fs, "localField") == 1 && KeyIndex(fs, "foreignField") == 2;
    FixtureFields();
  }

  lemma MatchStages()
    ensures CheckStage(MatchMoney()) == Pass && CheckStage(MatchNonEmpty()) == Pass
  {
    AllowedLookupStage();
  }

  /** A `$lookup` stage passes when its body's target and join specification do. */
  lemma LookupStagePasses(body: Value)
    requires body.Obj? && CheckLookupTarget(body.fields) == Pass && CheckJoinSpec(body) == Pass
    ensures CheckStage(Obj([("$lookup", body)])) == Pass
  {
    AllowedLookupStage();
    assert StartsWith("$lookup", "$");
  }

  lemma EqualityLookupStage()
    ensures CheckStage(Obj([("$lookup", EqualityLookupBody())])) == Pass
  {
    EqualityLookupTarget();
    EqualityLookupJoin();
    LookupStagePasses(EqualityLookupBody());
  }

  /** A list of stages that each pass is accepted unchanged. */
  lemma StagesPass(a: Value, b: Value, c: Value)
    requires CheckStage(a) == Pass && CheckStage(b) == Pass && CheckStage(c) == Pass
    ensures ValidateAggregationPipeline(Arr([a, b])) == Ok(Arr([a, b]))
    ensures ValidateAggregationPipeline(Arr([a, b, c])) == Ok(Arr([a, b, c]))
  {
    assert CheckStages(Arr([a, b]), 1) == Pass;
    assert CheckStages(Arr([a, b, c]), 2) == Pass;
    assert CheckStages(Arr([a, b, c]), 1) == Pass;
  }

  /** An equality `$lookup` between two plain `$match` stages passes unchanged. */
  lemma EqualityLookupPipelineAccepted()
    ensures var p := Arr([MatchMoney(), Obj([("$lookup", EqualityLookupBody())]), MatchNonEmpty()]);
      ValidateAggregationPipeline(p) == Ok(p)
  {
    EqualityLookupStage();
    MatchStages();
    StagesPass(MatchMoney(), Obj([("$lookup", EqualityLookupBody())]), MatchNonEmpty());
  }

  lemma NestedPipelineAccepted()
    ensures ValidateAggregationPipeline(NestedPipeline()) == Ok(NestedPipeline())
  {
    var p := NestedPipeline();
    AllowedLookupStage();
    assert CheckStage(p.elems[0]) == Pass;
    assert CheckStage(p.elems[1]) == Pass;
    assert CheckStages(p, 1) == Pass;
  }

  lemma PipelineLookupTarget()
    ensures CheckLookupTarget(PipelineLookupBody().fields) == Pass
  {
    var fs := PipelineLookupBody().fields;
    assert KeyIndex(fs, "from") == 0 && KeyIndex(fs, "as") == 3;
    ProductsName();
    FixtureFields();
  }

  lemma PipelineLookupJoin()
    ensures CheckJoinSpec(PipelineLookupBody()) == Pass
  {
    var fs := PipelineLookupBody().fields;
    assert !HasKey(fs, "localField") && !HasKey(fs, "foreignField");
    assert KeyIndex(fs, "pipeline") == 2 && KeyIndex(fs, "let") == 1;
    NestedPipelineAccepted();
  }

  lemma PipelineLookupStage()
    ensures CheckStage(Obj([("$lookup", PipelineLookupBody())])) == Pass
  {
    PipelineLookupTarget();
    PipelineLookupJoin();
    LookupStagePasses(PipelineLookupBody());
  }

  /** A pipeline-form `$lookup` with `let` passes; `$match` bodies are not inspected. */
  lemma PipelineLookupAccepted()
    ensures var p := Arr([MatchMoney(), Obj([("$lookup", PipelineLookupBody())])]);
      ValidateAggregationPipeline(p) == Ok(p)
  {
    PipelineLookupStage();
    MatchStages();
    StagesPass(MatchMoney(), Obj([("$lookup", PipelineLookupBody())]), MatchNonEmpty());
  }

  lemma LookupMissingFromRejected()
    ensures ValidateLookupStage(Obj([("localField", Str("city")), ("foreignField", Str("location")),
                                     ("as", Str("local_products"))]))
         == Err(LookupMissingFrom)
  {
  }

  /** `system.users` is stopped by the collection-name check, before the lookup's own test. */
  lemma LookupSystemCollectionRejected()
    ensures ValidateLookupStage(Obj([("from", Str("system.users")), ("localField", Str("user_id")),
                                     ("foreignField", Str("_id")), ("as", Str("user_info"))]))
         == Err(CollectionReserved)
  {
  }

  lemma LookupMissingAsRejected()
    ensures ValidateLookupStage(Obj([("from", Str("products")), ("localField", Str("city")),
                                     ("foreignField", Str("location"))]))
         == Err(LookupMissingAs)
  {
    ProductsName();
  }

  lemma LookupMissingJoinSpecRejected()
    ensures ValidateLookupStage(Obj([("from", Str("products")), ("as", Str("products_list"))]))
         == Err(LookupMissingJoinSpec)
  {
    var fs := [("from", Str("products")), ("as", Str("products_list"))];
    assert CheckLookupTarget(fs) == Pass by {
      ProductsName();
      FixtureFields();
    }
    assert CheckJoinSpec(Obj(fs)) == Fail(LookupMissingJoinSpec);
  }

  lemma LookupDollarCollectionRejected()
    ensures ValidateLookupStage(Obj([("from", Str("products$injection")), ("localField", Str("city")),
                                     ("foreignField", Str("location")), ("as", Str("products_list"))]))
         == Err(CollectionDollar)
  {
    DollarNameRejected();
    var fs := [("from", Str("products$injection")), ("localField", Str("city")),
               ("foreignField", Str("location")), ("as", Str("products_list"))];
    assert KeyIndex(fs, "from") == 0;
    assert CheckLookupTarget(fs) == Fail(CollectionDollar);
  }

  lemma DollarNameRejected()
    ensures ValidateCollectionName("products$injection") == Err(CollectionDollar)
  {
    var s := "products$injection";
    assert s[8] == '$';
    assert !StartsWith(s, "system.") by {
      assert s[..7][0] == 'p';
    }
    assert '\0' !in s by {
      assert forall i :: 0 <= i < |s| ==> s[i] != '\0';
    }
  }

  function WhereStagePipeline(): Value {
    Arr([Obj([("$where", Str("this.price < user_money"))])])
  }

  function WhereLookupBody(): Value {
    Obj([("from", Str("products")), ("let", Obj([("user_money", Str("$money"))])),
         ("pipeline", WhereStagePipeline()), ("as", Str("affordable_products"))])
  }

  lemma WhereStageUnknown()
    ensures ValidateAggregationPipeline(WhereStagePipeline()) == Err(UnknownStage("$where"))
  {
    assert "$where" !in AllowedStages && "$where" !in DangerousStages;
    assert CheckStage(WhereStagePipeline().elems[0]) == Fail(UnknownStage("$where"));
  }

  /** The target checks of a pipeline-form lookup do not depend on its `let` or `pipeline`. */
  lemma AffordableProductsTarget(letVars: Value, pipeline: Value)
    ensures CheckLookupTarget([("from", Str("products")), ("let", letVars), ("pipeline", pipeline),
                               ("as", Str("affordable_products"))]) == Pass
  {
    var fs := [("from", Str("products")), ("let", letVars), ("pipeline", pipeline),
               ("as", Str("affordable_products"))];
    assert fs[3].0 == "as";
    assert KeyIndex(fs, "from") == 0 && KeyIndex(fs, "as") == 3;
    ProductsName();
    FixtureFields();
  }

  /** A `$where` stage inside a nested pipeline is an unknown stage. */
  lemma NestedWhereStageRejected()
    ensures ValidateLookupStage(WhereLookupBody()) == Err(UnknownStage("$where"))
  {
    AffordableProductsTarget(Obj([("user_money", Str("$money"))]), WhereStagePipeline());
    WhereStageUnknown();
    var fs := WhereLookupBody().fields;
    assert !HasKey(fs, "localField") && !HasKey(fs, "foreignField");
    assert KeyIndex(fs, "pipeline") == 2;
    assert CheckJoinSpec(WhereLookupBody()) == Fail(UnknownStage("$where"));
  }

  /** A `$match` stage carrying `$where` passes the pipeline validator. */
  lemma WhereInsideMatchNotInspected()
    ensures var p := Arr([Obj([("$match", Obj([("$where", Str("this.a > 1"))]))])]);
      ValidateAggregationPipeline(p) == Ok(p)
  {
  }

  /** `$where` directly in a filter, or in a dict inside a list, is rejected. */
  lemma WhereInFilterRejected()
    ensures ValidateQueryStructure(Obj([("$where", Str("x"))]), true) == Fail(DangerousOperator("$where"))
    ensures ValidateQueryStructure(Obj([("$or", Arr([Obj([("$where", Str("x"))])]))]), true)
         == Fail(DangerousOperator("$where"))
  {
  }

  /** A dict inside a list inside a list is not looked at. */
  lemma DoublyNestedListNotInspected()
    ensures ValidateQueryStructure(Obj([("$or", Arr([Arr([Obj([("$where", Str("x"))])])]))]), true) == Pass
  {
  }

  /** Python's `$` also matches before a final newline, so such a name is accepted. */
  lemma TrailingNewlineNameAccepted()
    ensures ValidateCollectionName("users\n") == Ok("users\n")
    ensures ValidateCollectionName("users\n\n") == Err(CollectionBadChars)
    ensures ValidateCollectionName("user s") == Err(CollectionBadChars)
  {
    NewlineNameAccepted("users");
    assert "users" + "\n" == "users\n";
    BadNameRejected("users\n\n", 5);
    BadNameRejected("user s", 4);
  }

  /** A plain name followed by one newline is accepted. */
  lemma NewlineNameAccepted(s: string)
    requires 1 <= |s| < MaxCollectionNameLength && forall i :: 0 <= i < |s| ==> NameChar(s[i])
    ensures ValidateCollectionName(s + "\n") == Ok(s + "\n")
  {
    assert (s + "\n")[..|s|] == s;
  }

  /**
   * A name with a character outside the pattern before its last two
   * positions, and none of the earlier checks' characters, is reported as
   * having bad characters.
   */
  lemma BadNameRejected(s: string, k: nat)
    requires k + 2 <= |s| <= MaxCollectionNameLength && !NameChar(s[k])
    requires forall i :: 0 <= i < |s| ==> s[i] != '\0' && s[i] != '$' && s[i] != '.'
    ensures ValidateCollectionName(s) == Err(CollectionBadChars)
  {
    assert !StartsWith(s, "system.") by {
      assert |s| >= 7 ==> s[..7][6] == s[6];
    }
    assert !AllNameChars(s);
    assert !AllNameChars(s[..|s| - 1]) by {
      assert s[..|s| - 1][k] == s[k];
    }
  }

  lemma NestedFieldPathAccepted()
    ensures ValidateFieldName("address.city") == Ok("address.city")
    ensures ValidateFieldName("") == Err(FieldEmpty)
  {
    assert FieldPathAccepted("address.city");
  }

  /** An empty part between two dots is reported as such. */
  lemma EmptyFieldPartRejected()
    ensures ValidateFieldName("a..b") == Err(FieldPartEmpty)
  {
    assert IndexOf("a..b", '.') == 1 && IndexOf(".b", '.') == 0;
    assert "a..b"[..1] == "a" && "a..b"[2..] == ".b" && ".b"[..0] == "" && ".b"[1..] == "b";
    SplitAtSeparator("a..b", '.');
    SplitAtSeparator(".b", '.');
    SplitNoSeparator("b", '.');
    assert Split("a..b", '.') == ["a", "", "b"];
  }

  /** A part starting with `$` is reported with the offending part. */
  lemma DollarFieldPartRejected()
    ensures ValidateFieldName("a.$b") == Err(FieldPartDollar("$b"))
  {
    assert IndexOf("a.$b", '.') == 1;
    assert "a.$b"[..1] == "a" && "a.$b"[2..] == "$b";
    SplitAtSeparator("a.$b", '.');
    SplitNoSeparator("$b", '.');
    assert Split("a.$b", '.') == ["a", "$b"];
  }

  /** `True` equals 1 in Python, so it is a valid sort direction; `"asc"` is not. */
  lemma SortDirectionExamples()
    ensures ValidateSortSpecification(Obj([("price", Bool(true))])).Ok?
    ensures ValidateSortSpecification(Obj([("price", Float(-1.0))])).Ok?
    ensures ValidateSortSpecification(Obj([("price", Str("asc"))])) == Err(SortDirection(Str("asc")))
  {
  }

  /** Three `*` on one line, each after at least one character, are dangerous. */
  lemma RepeatedStarRejected()
    ensures SanitizeRegexPattern(Str("a*b*c*")) == Err(RegexDangerousRepetition)
  {
    var s := "a*b*c*";
    assert s[1] == '*' && s[3] == '*' && s[5] == '*' && NoNewline(s, 0, 5);
  }

  lemma PlainPatternAccepted()
    ensures SanitizeRegexPattern(Str("^abc$")) == Ok("^abc$")
    ensures SanitizeRegexPattern(Int(3)) == Err(RegexNotString)
  {
    var t := "^abc$";
    assert '(' !in t && '*' !in t && '+' !in t;
    assert "(.*)*"[0] == '(' && "(.+)+"[0] == '(';
    MissingFirstCharNotContained(t, "(.*)*");
    MissingFirstCharNotContained(t, "(.+)+");
  }
}
