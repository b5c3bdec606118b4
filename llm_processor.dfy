/**
 * The parts of query generation that do not depend on the language model:
 * which provider is asked, how its reply text is cleaned and checked, how
 * failures are reported, and the schema description put into the prompt.
 *
 * The model call and `json.loads` are parameters: a `Completion` is what the
 * provider answered (or that the call failed), and `parse` stands for JSON
 * parsing of the cleaned text.
 */
module LlmProcessor {
  import opened Text
  import opened Values
  import opened Seqs
  import opened DataModels
  import opened MongoProcessor

  // ---------------------------------------------------------------------
  // Provider selection (generate_mongodb_query)
  // ---------------------------------------------------------------------

  datatype Provider = OpenAI | Anthropic

  /** `if key:` on `os.environ.get(...)`: present and non-empty. */
  predicate KeySet(key: Option<string>) {
    key.Some? && key.value != ""
  }

  /** A set OpenAI key wins, then a set Anthropic key, then the request's preference. */
  function SelectProvider(openaiKey: Option<string>, anthropicKey: Option<string>, llmProvider: string): Provider {
    if KeySet(openaiKey) then OpenAI
    else if KeySet(anthropicKey) then Anthropic
    else if llmProvider == "openai" then OpenAI
    else Anthropic
  }

  /** OpenAI is chosen exactly when its key is set, or neither key is and the request asks for it. */
  lemma SelectProviderIff(openaiKey: Option<string>, anthropicKey: Option<string>, llmProvider: string)
    ensures SelectProvider(openaiKey, anthropicKey, llmProvider) == OpenAI
        <==> KeySet(openaiKey) || (!KeySet(anthropicKey) && llmProvider == "openai")
    ensures SelectProvider(openaiKey, anthropicKey, llmProvider) == Anthropic
        <==> !KeySet(openaiKey) && (KeySet(anthropicKey) || llmProvider != "openai")
  {
  }

  // ---------------------------------------------------------------------
  // Cleaning the reply text
  // ---------------------------------------------------------------------

  /** The first two removals: a leading ```` ```json ````, then a leading ```` ``` ```` of what is left. */
  function DropOpening(text: string): string {
    var t1 := if StartsWith(text, "```json") then text[7..] else text;
    if StartsWith(t1, "```") then t1[3..] else t1
  }

  /** The last removal: a trailing ```` ``` ````. */
  function DropClosing(text: string): string {
    if EndsWith(text, "```") then text[..|text| - 3] else text
  }

  /** The three fence removals, each tested on the text the previous one left. */
  function StripFences(text: string): string {
    DropClosing(DropOpening(text))
  }

  /** What the Anthropic generator hands to `json.loads`: stripped, fences removed, stripped again. */
  function CleanReply(content: string): string {
    Strip(StripFences(Strip(content)))
  }

  /** Only whitespace. */
  predicate Blank(s: string) {
    forall i :: 0 <= i < |s| ==> IsSpace(s[i])
  }

  /** A JSON text as a model writes it: no surrounding whitespace, no backtick at either end, not starting with `json`. */
  predicate PlainBody(b: string) {
    |b| > 0 && !IsSpace(b[0]) && !IsSpace(b[|b| - 1])
    && b[0] != '`' && b[|b| - 1] != '`' && b[0] != 'j'
  }

  /** The text inside the fences starts with whitespace or with the body, so not with a backtick or `j`. */
  lemma InnerStart(pre: string, b: string, post: string)
    requires Blank(pre) && PlainBody(b)
    ensures var inner := pre + b + post;
      |inner| > 0 && inner[0] != '`' && inner[0] != 'j'
  {
    if |pre| > 0 {
      assert (pre + b + post)[0] == pre[0];
    } else {
      assert (pre + b + post)[0] == b[0];
    }
  }

  lemma OpeningJson(x: string)
    requires |x| > 0 && x[0] != '`'
    ensures DropOpening("```json" + x) == x
  {
    var t := "```json" + x;
    assert t[..7] == "```json";
    assert t[7..] == x;
  }

  lemma OpeningPlain(x: string)
    requires |x| > 0 && x[0] != '`' && x[0] != 'j'
    ensures DropOpening("```" + x) == x
  {
    var t := "```" + x;
    assert t[3] == x[0];
    assert t[..3] == "```";
    assert t[3..] == x;
  }

  lemma Closing(x: string)
    ensures DropClosing(x + "```") == x
  {
    var t := x + "```";
    assert t[|x|..] == "```";
    assert t[..|x|] == x;
  }

  /** A fenced reply has a backtick at both ends, so the first strip keeps it whole. */
  lemma FencedKept(f: string, inner: string)
    requires |f| > 0 && f[0] == '`'
    ensures Strip(f + inner + "```") == f + inner + "```"
  {
    var t := f + inner + "```";
    assert t[0] == '`' && t[|t| - 1] == '`';
    StripOfStripped(t);
  }

  lemma CleanJsonFenced(pre: string, b: string, post: string)
    requires Blank(pre) && Blank(post) && PlainBody(b)
    ensures CleanReply("```json" + pre + b + post + "```") == b
  {
    var inner := pre + b + post;
    assert "```json" + pre + b + post + "```" == "```json" + inner + "```";
    FencedKept("```json", inner);
    InnerStart(pre, b, post);
    assert ("```json" + inner + "```") == "```json" + (inner + "```");
    OpeningJson(inner + "```");
    Closing(inner);
    StripPadded(pre, b, post);
  }

  lemma CleanFenced(pre: string, b: string, post: string)
    requires Blank(pre) && Blank(post) && PlainBody(b)
    ensures CleanReply("```" + pre + b + post + "```") == b
  {
    var inner := pre + b + post;
    assert "```" + pre + b + post + "```" == "```" + inner + "```";
    FencedKept("```", inner);
    InnerStart(pre, b, post);
    assert ("```" + inner + "```") == "```" + (inner + "```");
    OpeningPlain(inner + "```");
    Closing(inner);
    StripPadded(pre, b, post);
  }

  /** A text starting with neither a backtick nor whitespace loses nothing at the front. */
  lemma OpeningAbsent(x: string)
    requires |x| > 0 && x[0] != '`'
    ensures DropOpening(x) == x
  {
    assert !StartsWith(x, "```json") by {
      if |x| >= 7 {
        assert x[..7][0] == x[0];
      }
    }
    assert !StartsWith(x, "```") by {
      if |x| >= 3 {
        assert x[..3][0] == x[0];
      }
    }
  }

  /** A text not ending in a backtick loses nothing at the back. */
  lemma ClosingAbsent(x: string)
    requires |x| > 0 && x[|x| - 1] != '`'
    ensures DropClosing(x) == x
  {
    if |x| >= 3 {
      assert x[|x| - 3..][2] == x[|x| - 1];
    }
  }

  lemma CleanUnfenced(pre: string, b: string, post: string)
    requires Blank(pre) && Blank(post) && PlainBody(b)
    ensures CleanReply(pre + b + post) == b
  {
    StripPadded(pre, b, post);
    OpeningAbsent(b);
    ClosingAbsent(b);
    StripOfStripped(b);
  }

  /**
   * Cleaning recovers the body from a reply fenced as ```` ```json ````
   * or ```` ``` ````, with any whitespace inside the fence, and leaves an
   * unfenced reply's body alone.
   */
  lemma CleanReplyRoundTrip(pre: string, b: string, post: string)
    requires Blank(pre) && Blank(post) && PlainBody(b)
    ensures CleanReply("```json" + pre + b + post + "```") == b
    ensures CleanReply("```" + pre + b + post + "```") == b
    ensures CleanReply(pre + b + post) == b
  {
    CleanJsonFenced(pre, b, post);
    CleanFenced(pre, b, post);
    CleanUnfenced(pre, b, post);
  }

  // ---------------------------------------------------------------------
  // The required-key check
  // ---------------------------------------------------------------------

  const RequiredKeys: seq<string> := ["query_type", "collection", "query"]

  /** The outcome of Python's `key in result`, which also works on lists and strings. */
  datatype Membership = Member | NotMember | NotIterable(typeName: string)

  function Contains(result: Value, key: string): Membership {
    match result
    case Obj(fs) => if HasKey(fs, key) then Member else NotMember
    case Arr(es) => if Str(key) in es then Member else NotMember
    case Tuple(items) => if Str(key) in items then Member else NotMember
    case Str(s) => if ContainsSub(s, key) then Member else NotMember
    case _ => NotIterable(TypeName(result))
  }

  /**
   * The keys are tested in order and the first failure raises: a
   * `TypeError` for a result that is not a container, otherwise the
   * `ValueError` about the structure.
   */
  function MissingKeyError(result: Value, keys: seq<string>): Option<string> {
    if keys == [] then None
    else match Contains(result, keys[0])
      case NotIterable(t) => Some("argument of type '" + t + "' is not iterable")
      case NotMember => Some("Invalid query structure returned from LLM")
      case Member => MissingKeyError(result, keys[1..])
  }

  /** A dict passes exactly when it has every required key. */
  lemma {:induction false} MissingKeyErrorIff(result: Value, keys: seq<string>)
    ensures MissingKeyError(result, keys) == None
        <==> forall k :: 0 <= k < |keys| ==> Contains(result, keys[k]) == Member
    decreases |keys|
  {
    if keys != [] {
      MissingKeyErrorIff(result, keys[1..]);
      assert forall k :: 1 <= k < |keys| ==> keys[k] == keys[1..][k - 1];
    }
  }

  lemma RequiredKeysOfDict(fs: seq<(string, Value)>)
    ensures MissingKeyError(Obj(fs), RequiredKeys) == None
        <==> HasKey(fs, "query_type") && HasKey(fs, "collection") && HasKey(fs, "query")
  {
    MissingKeyErrorIff(Obj(fs), RequiredKeys);
    assert RequiredKeys[0] == "query_type" && RequiredKeys[1] == "collection" && RequiredKeys[2] == "query";
  }

  /**
   * A list holding the three key names passes the check although it is not
   * a query, and a number makes the check raise a type error.
   */
  lemma RequiredKeysQuirks()
    ensures MissingKeyError(Arr([Str("query_type"), Str("collection"), Str("query")]), RequiredKeys) == None
    ensures MissingKeyError(Int(1), RequiredKeys) == Some("argument of type 'int' is not iterable")
  {
    assert RequiredKeys != [] && Contains(Int(1), RequiredKeys[0]) == NotIterable("int");
    assert "argument of type '" + "int" + "' is not iterable" == "argument of type 'int' is not iterable";
    var l := Arr([Str("query_type"), Str("collection"), Str("query")]);
    assert Contains(l, "query_type") == Member;
    assert Contains(l, "collection") == Member;
    assert Contains(l, "query") == Member;
    MissingKeyErrorIff(l, RequiredKeys);
  }

  // ---------------------------------------------------------------------
  // The two generators
  // ---------------------------------------------------------------------

  /** What the provider's API answered: a failed call, or the reply text. */
  datatype Completion = CallFailed(reason: string) | Reply(content: string)

  /** `json.loads`: a value, or the parse error's message. */
  datatype Parsed = Parsed(value: Value) | ParseFailed(reason: string)

  /** A query dict, or the message of the exception raised. */
  datatype Generation = Query(result: Value) | GenerationFailed(message: string)

  const OpenAIPrefix := "Error generating MongoDB query with OpenAI: "
  const AnthropicPrefix := "Error generating MongoDB query with Anthropic: "

  /** Every exception is re-raised with the provider's prefix before its message. */
  function WithPrefix(prefix: string, g: Generation): Generation {
    match g
    case Query(_) => g
    case GenerationFailed(m) => GenerationFailed(prefix + m)
  }

  function MissingKeyMessage(keyName: string): string {
    keyName + " environment variable not set"
  }

  /** The generator body once the key is known: call, clean, parse, check. */
  function Attempt(apiKey: Option<string>, keyName: string, completion: Completion, clean: string -> string,
                   parse: string -> Parsed): Generation
  {
    if !KeySet(apiKey) then GenerationFailed(MissingKeyMessage(keyName))
    else match completion
      case CallFailed(reason) => GenerationFailed(reason)
      case Reply(content) =>
        match parse(clean(content))
        case ParseFailed(reason) => GenerationFailed(reason)
        case Parsed(result) =>
          match MissingKeyError(result, RequiredKeys)
          case Some(m) => GenerationFailed(m)
          case None => Query(result)
  }

  /** `generate_mongodb_query_with_openai`: the reply is only stripped. */
  function GenerateWithOpenAI(apiKey: Option<string>, completion: Completion, parse: string -> Parsed): Generation {
    WithPrefix(OpenAIPrefix, Attempt(apiKey, "OPENAI_API_KEY", completion, Strip, parse))
  }

  /** `generate_mongodb_query_with_anthropic`: the reply is stripped and its fences removed. */
  function GenerateWithAnthropic(apiKey: Option<string>, completion: Completion, parse: string -> Parsed): Generation {
    WithPrefix(AnthropicPrefix, Attempt(apiKey, "ANTHROPIC_API_KEY", completion, CleanReply, parse))
  }

  /** `generate_mongodb_query`: the chosen generator, given the key it reads itself. */
  function GenerateMongoDBQuery(openaiKey: Option<string>, anthropicKey: Option<string>, llmProvider: string,
                                completion: Completion, parse: string -> Parsed): Generation
  {
    match SelectProvider(openaiKey, anthropicKey, llmProvider)
    case OpenAI => GenerateWithOpenAI(openaiKey, completion, parse)
    case Anthropic => GenerateWithAnthropic(anthropicKey, completion, parse)
  }

  /**
   * A generator returns a value exactly when its key is set, the call
   * answered, the cleaned text parsed, and the parsed value passed the key
   * check; every failure message carries the provider's prefix.
   */
  lemma AttemptIff(apiKey: Option<string>, keyName: string, completion: Completion, clean: string -> string,
                   parse: string -> Parsed, prefix: string, v: Value)
    ensures var g := WithPrefix(prefix, Attempt(apiKey, keyName, completion, clean, parse));
      (g == Query(v) <==>
        (KeySet(apiKey) && completion.Reply? && parse(clean(completion.content)) == Parsed(v)
         && MissingKeyError(v, RequiredKeys) == None))
      && (g.GenerationFailed? ==> StartsWith(g.message, prefix))
  {
    var g := WithPrefix(prefix, Attempt(apiKey, keyName, completion, clean, parse));
    if g.GenerationFailed? {
      var m := Attempt(apiKey, keyName, completion, clean, parse).message;
      assert g.message == prefix + m;
      assert g.message[..|prefix|] == prefix;
    }
  }

  /** A query returned by either route is a dict with the three keys, or a value the key check lets through. */
  lemma GeneratedQueryChecked(openaiKey: Option<string>, anthropicKey: Option<string>, llmProvider: string,
                              completion: Completion, parse: string -> Parsed)
    ensures var g := GenerateMongoDBQuery(openaiKey, anthropicKey, llmProvider, completion, parse);
      g.Query? ==>
        (MissingKeyError(g.result, RequiredKeys) == None
         && (g.result.Obj? ==>
               HasKey(g.result.fields, "query_type") && HasKey(g.result.fields, "collection")
               && HasKey(g.result.fields, "query")))
  {
    var g := GenerateMongoDBQuery(openaiKey, anthropicKey, llmProvider, completion, parse);
    if g.Query? {
      if SelectProvider(openaiKey, anthropicKey, llmProvider) == OpenAI {
        AttemptIff(openaiKey, "OPENAI_API_KEY", completion, Strip, parse, OpenAIPrefix, g.result);
      } else {
        AttemptIff(anthropicKey, "ANTHROPIC_API_KEY", completion, CleanReply, parse, AnthropicPrefix, g.result);
      }
    }
    if g.Query? && g.result.Obj? {
      RequiredKeysOfDict(g.result.fields);
    }
  }

  /** With neither key set, the preferred generator is called and fails on its own missing key. */
  lemma NoKeyNoQuery(openaiKey: Option<string>, anthropicKey: Option<string>, llmProvider: string,
                     completion: Completion, parse: string -> Parsed)
    requires !KeySet(openaiKey) && !KeySet(anthropicKey)
    ensures GenerateMongoDBQuery(openaiKey, anthropicKey, llmProvider, completion, parse)
         == if llmProvider == "openai" then GenerationFailed(OpenAIPrefix + MissingKeyMessage("OPENAI_API_KEY"))
            else GenerationFailed(AnthropicPrefix + MissingKeyMessage("ANTHROPIC_API_KEY"))
  {
    if llmProvider == "openai" {
      assert SelectProvider(openaiKey, anthropicKey, llmProvider) == OpenAI;
    } else {
      assert SelectProvider(openaiKey, anthropicKey, llmProvider) == Anthropic;
    }
  }

  // ---------------------------------------------------------------------
  // format_schema_for_prompt
  // ---------------------------------------------------------------------

  /** A field's entry as the prompt reads it: `type` and `sample` may be missing. */
  datatype PromptField = PromptField(fieldType: Option<string>, sample: Option<Value>)

  /** A collection's entry: `count` may be missing; missing `fields` is the empty table. */
  datatype PromptCollection = PromptCollection(count: Option<Value>, fields: seq<(string, PromptField)>)

  /**
   * The argument: a report with `collections` and `relationships` keys, or
   * a bare map from collection names to entries.
   */
  datatype PromptSchema =
    | Report(collections: seq<(string, PromptCollection)>, relationships: seq<FieldRelationship>)
    | Bare(collections: seq<(string, PromptCollection)>)

  const RelationshipsHeader := "Relationships between collections:"

  /** The relationships listed: those passed in, else the schema's own (none for a bare map). */
  function EffectiveRelationships(schema: PromptSchema, relationships: Option<seq<FieldRelationship>>)
    : seq<FieldRelationship>
  {
    match relationships
    case Some(rs) => rs
    case None => if schema.Report? then schema.relationships else []
  }

  /**
   * `"  - name (type) - example: sample"`; `show` stands for Python's
   * `str()` of the sample, and a missing sample prints as nothing.
   */
  function FieldLine(name: string, info: PromptField, show: Value -> string): string {
    var t := if info.fieldType.Some? then info.fieldType.value else "unknown";
    var s := if info.sample.Some? then show(info.sample.value) else "";
    "  - " + name + " (" + t + ") - example: " + s
  }

  function FieldStep(show: Value -> string): ((string, PromptField)) -> seq<string> {
    (entry: (string, PromptField)) => if entry.0 != "_id" then [FieldLine(entry.0, entry.1, show)] else []
  }

  /** The block of one collection: name, count, `Fields:`, one line per field but `_id`, and a blank line. */
  function CollectionLines(entry: (string, PromptCollection), show: Value -> string): seq<string> {
    var count := if entry.1.count.Some? then show(entry.1.count.value) else "0";
    ["Collection: " + entry.0, "Document count: " + count, "Fields:"]
    + ConcatMap(entry.1.fields, FieldStep(show)) + [""]
  }

  function CollectionStep(show: Value -> string): ((string, PromptCollection)) -> seq<string> {
    (entry: (string, PromptCollection)) => CollectionLines(entry, show)
  }

  /**
   * `"  - sc.sf → tc.tf (confidence: c, type: t)"`; `fixed2` stands for the
   * two-decimal rendering of the confidence.
   */
  function RelationshipLine(rel: FieldRelationship, fixed2: real -> string): string {
    "  - " + rel.sourceCollection + "." + rel.sourceField + " \U{2192} "
    + rel.targetCollection + "." + rel.targetField
    + " (confidence: " + fixed2(rel.confidenceScore) + ", type: " + TypeValue(rel.relationshipType) + ")"
  }

  function RelationshipStep(fixed2: real -> string): FieldRelationship -> seq<string> {
    (rel: FieldRelationship) => [RelationshipLine(rel, fixed2)]
  }

  /** The relationships section: present only for a non-empty list. */
  function RelationshipSection(rels: seq<FieldRelationship>, fixed2: real -> string): seq<string> {
    if rels == [] then [] else [RelationshipsHeader] + ConcatMap(rels, RelationshipStep(fixed2)) + [""]
  }

  /** The lines of the description, in order. */
  function PromptLines(schema: PromptSchema, relationships: Option<seq<FieldRelationship>>,
                       show: Value -> string, fixed2: real -> string): seq<string>
  {
    ConcatMap(schema.collections, CollectionStep(show))
    + RelationshipSection(EffectiveRelationships(schema, relationships), fixed2)
  }

  /** The field loop of one collection. */
  method AppendFieldLines(lines0: seq<string>, fields: seq<(string, PromptField)>, show: Value -> string)
    returns (lines: seq<string>)
    ensures lines == lines0 + ConcatMap(fields, FieldStep(show))
  {
    lines := lines0;
    for j := 0 to |fields|
      invariant lines == lines0 + ConcatMap(fields[..j], FieldStep(show))
    {
      ConcatMapPrefix(fields, j, FieldStep(show));
      var (name, info) := fields[j];
      if name != "_id" {
        lines := lines + [FieldLine(name, info, show)];
      }
    }
    assert fields[..|fields|] == fields;
  }

  /** One collection's block. */
  method AppendCollection(lines0: seq<string>, entry: (string, PromptCollection), show: Value -> string)
    returns (lines: seq<string>)
    ensures lines == lines0 + CollectionStep(show)(entry)
  {
    var (name, info) := entry;
    var count := if info.count.Some? then show(info.count.value) else "0";
    var header := ["Collection: " + name, "Document count: " + count, "Fields:"];
    lines := AppendFieldLines(lines0 + header, info.fields, show);
    lines := lines + [""];
    assert lines == lines0 + (header + ConcatMap(info.fields, FieldStep(show)) + [""]);
  }

  /** The collection loop. */
  method AppendCollections(collections: seq<(string, PromptCollection)>, show: Value -> string)
    returns (lines: seq<string>)
    ensures lines == ConcatMap(collections, CollectionStep(show))
  {
    lines := [];
    for i := 0 to |collections|
      invariant lines == ConcatMap(collections[..i], CollectionStep(show))
    {
      ConcatMapPrefix(collections, i, CollectionStep(show));
      lines := AppendCollection(lines, collections[i], show);
    }
    assert collections[..|collections|] == collections;
  }

  /** The relationships loop. */
  method AppendRelationshipLines(lines0: seq<string>, rels: seq<FieldRelationship>, fixed2: real -> string)
    returns (lines: seq<string>)
    ensures lines == lines0 + ConcatMap(rels, RelationshipStep(fixed2))
  {
    lines := lines0;
    for k := 0 to |rels|
      invariant lines == lines0 + ConcatMap(rels[..k], RelationshipStep(fixed2))
    {
      ConcatMapPrefix(rels, k, RelationshipStep(fixed2));
      lines := lines + [RelationshipLine(rels[k], fixed2)];
    }
    assert rels[..|rels|] == rels;
  }

  /** The relationships section: the header, the loop, and the blank line after. */
  method AppendRelationships(lines0: seq<string>, rels: seq<FieldRelationship>, fixed2: real -> string)
    returns (lines: seq<string>)
    requires rels != []
    ensures lines == lines0 + RelationshipSection(rels, fixed2)
  {
    lines := AppendRelationshipLines(lines0 + [RelationshipsHeader], rels, fixed2);
    lines := lines + [""];
    assert lines == lines0 + ([RelationshipsHeader] + ConcatMap(rels, RelationshipStep(fixed2)) + [""]);
  }

  /** `format_schema_for_prompt`: the lines built in order, joined with newlines. */
  method FormatSchemaForPrompt(schema: PromptSchema, relationships: Option<seq<FieldRelationship>>,
                               show: Value -> string, fixed2: real -> string)
    returns (text: string)
    ensures text == Join(PromptLines(schema, relationships, show, fixed2), "\n")
  {
    var rels := EffectiveRelationships(schema, relationships);
    var lines := AppendCollections(schema.collections, show);
    if |rels| > 0 {
      lines := AppendRelationships(lines, rels, fixed2);
    } else {
      assert lines + RelationshipSection(rels, fixed2) == lines;
    }
    text := Join(lines, "\n");
  }

  /** With no collection and no relationship the description is empty. */
  lemma EmptySchemaEmptyPrompt(schema: PromptSchema, relationships: Option<seq<FieldRelationship>>,
                               show: Value -> string, fixed2: real -> string)
    requires schema.collections == [] && EffectiveRelationships(schema, relationships) == []
    ensures Join(PromptLines(schema, relationships, show, fixed2), "\n") == ""
  {
    assert PromptLines(schema, relationships, show, fixed2) == [];
  }

  /** No line of a collection block starts with `R`. */
  lemma CollectionLinesNotHeader(collections: seq<(string, PromptCollection)>, show: Value -> string, line: string)
    requires line in ConcatMap(collections, CollectionStep(show))
    ensures line != RelationshipsHeader
  {
    ConcatMapMember(collections, CollectionStep(show), line);
    var i :| 0 <= i < |collections| && line in CollectionLines(collections[i], show);
    var fields := collections[i].1.fields;
    var fieldLines := ConcatMap(fields, FieldStep(show));
    if line in fieldLines {
      ConcatMapMember(fields, FieldStep(show), line);
      var k :| 0 <= k < |fields| && line in FieldStep(show)(fields[k]);
      assert line[0] == ' ';
    } else {
      assert line == "" || line[0] == 'C' || line[0] == 'D' || line[0] == 'F';
    }
  }

  /** The relationships header appears exactly when there is a relationship to list. */
  lemma RelationshipsHeaderIff(schema: PromptSchema, relationships: Option<seq<FieldRelationship>>,
                               show: Value -> string, fixed2: real -> string)
    ensures RelationshipsHeader in PromptLines(schema, relationships, show, fixed2)
        <==> EffectiveRelationships(schema, relationships) != []
  {
    var block := ConcatMap(schema.collections, CollectionStep(show));
    var section := RelationshipSection(EffectiveRelationships(schema, relationships), fixed2);
    if RelationshipsHeader in block {
      CollectionLinesNotHeader(schema.collections, show, RelationshipsHeader);
    }
    if section != [] {
      assert section[0] == RelationshipsHeader;
      assert (block + section)[|block|] == RelationshipsHeader;
    }
  }

  /** A field's line is listed exactly for the fields other than `_id`. */
  lemma FieldLinesIff(fields: seq<(string, PromptField)>, show: Value -> string, line: string)
    ensures line in ConcatMap(fields, FieldStep(show))
        <==> exists k :: 0 <= k < |fields| && fields[k].0 != "_id" && line == FieldLine(fields[k].0, fields[k].1, show)
  {
    ConcatMapMember(fields, FieldStep(show), line);
  }

  /** One line per relationship, in order, between the header and a blank line. */
  lemma {:induction false} RelationshipLines(rels: seq<FieldRelationship>, fixed2: real -> string)
    ensures var lines := ConcatMap(rels, RelationshipStep(fixed2));
      |lines| == |rels| && forall k :: 0 <= k < |rels| ==> lines[k] == RelationshipLine(rels[k], fixed2)
    decreases |rels|
  {
    if rels != [] {
      RelationshipLines(rels[..|rels| - 1], fixed2);
    }
  }
}
