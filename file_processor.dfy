/**
 * Upload handling: the collection name derived from an uploaded file's
 * name, and the field-type table inferred from the parsed documents.
 */
module FileProcessor {
  import opened Text
  import opened Values
  import opened MongoSecurity
  import opened MongoProcessor

  // ---------------------------------------------------------------------
  // sanitize_collection_name
  // ---------------------------------------------------------------------

  /** The modulus applied to the hash in the fallback name. */
  const HashModulus := 100000

  /** `name.rsplit('.', 1)[0]` when the name contains a dot: the text before the last dot. */
  function DropExtension(name: string): string {
    if '.' in name then name[..LastIndexOf(name, '.')] else name
  }

  /** `re.sub(r'[^a-zA-Z0-9_-]', '_', s)`: each other character becomes one `_`. */
  function ReplaceBadChars(s: string): string {
    seq(|s|, i requires 0 <= i < |s| => if NameChar(s[i]) then s[i] else '_')
  }

  /** `c.isalpha()` for the characters left after replacement, which are all ASCII. */
  predicate IsAsciiLetter(c: char) {
    ('a' <= c <= 'z') || ('A' <= c <= 'Z')
  }

  /** A non-empty name whose first character is neither a letter nor `_` gets a `_` in front. */
  function EnsureLeading(s: string): string {
    if s != "" && !IsAsciiLetter(s[0]) && s[0] != '_' then "_" + s else s
  }

  /** The name before validation: extension dropped, characters replaced, leading character fixed, `collection` if empty. */
  function Candidate(stripped: string): string {
    var s := EnsureLeading(ReplaceBadChars(stripped));
    if s == "" then "collection" else s
  }

  /** `f"collection_{hash(name) % 100000}"`; Python's `%` by a positive modulus is never negative. */
  function FallbackName(h: int): string {
    "collection_" + NatToString(h % HashModulus)
  }

  /**
   * `sanitize_collection_name`; `hash` stands for Python's string hash,
   * applied to the name once its extension is dropped.
   */
  function SanitizeCollectionName(name: string, hash: string -> int): (r: string)
    ensures ValidateCollectionName(r) == Ok(r)
  {
    var stripped := DropExtension(name);
    var candidate := Candidate(stripped);
    CandidateShape(stripped);
    FallbackShape(hash(stripped));
    if ValidateCollectionName(candidate).Ok? then candidate else FallbackName(hash(stripped))
  }

  /** The shape every sanitized name has: name characters only, starting with a letter or `_`. */
  predicate SanitizedShape(s: string) {
    s != "" && (IsAsciiLetter(s[0]) || s[0] == '_') && forall i :: 0 <= i < |s| ==> NameChar(s[i])
  }

  lemma CandidateShape(stripped: string)
    ensures SanitizedShape(Candidate(stripped))
    ensures |Candidate(stripped)| <= |stripped| + 1 || Candidate(stripped) == "collection"
  {
    var s := ReplaceBadChars(stripped);
    if s != "" && !IsAsciiLetter(s[0]) && s[0] != '_' {
      assert EnsureLeading(s)[1..] == s;
    }
  }

  lemma FallbackShape(h: int)
    ensures SanitizedShape(FallbackName(h))
    ensures |FallbackName(h)| <= 16
  {
    var n := h % HashModulus;
    assert Pow10(5) == 100000;
    NatToStringLength(n, 5);
    var r := FallbackName(h);
    forall i | 0 <= i < |r|
      ensures NameChar(r[i])
    {
      if i >= 11 {
        assert r[i] == NatToString(n)[i - 11];
      }
    }
  }

  /** A name of the sanitized shape is accepted exactly when it has at most 120 characters. */
  lemma ShapedNameAccepted(s: string)
    requires SanitizedShape(s)
    ensures ValidateCollectionName(s).Ok? <==> |s| <= MaxCollectionNameLength
  {
  }

  /**
   * The fallback is taken exactly when the candidate is too long, which is
   * the only way the validator can still reject it.
   */
  lemma FallbackIffTooLong(name: string, hash: string -> int)
    ensures var stripped := DropExtension(name);
      var candidate := Candidate(stripped);
      SanitizeCollectionName(name, hash)
        == if |candidate| > MaxCollectionNameLength then FallbackName(hash(stripped)) else candidate
  {
    var stripped := DropExtension(name);
    CandidateShape(stripped);
    ShapedNameAccepted(Candidate(stripped));
  }

  /** A name of the sanitized shape passes through every step unchanged. */
  lemma CandidateOfShaped(s: string)
    requires SanitizedShape(s)
    ensures DropExtension(s) == s && Candidate(s) == s
  {
    assert '.' !in s by {
      assert forall i :: 0 <= i < |s| ==> s[i] != '.';
    }
    assert ReplaceBadChars(s) == s;
  }

  /** Sanitizing a sanitized name returns it unchanged, whatever the hash. */
  lemma SanitizeIdempotent(name: string, hash: string -> int, hash2: string -> int)
    ensures var s := SanitizeCollectionName(name, hash);
      SanitizeCollectionName(s, hash2) == s
  {
    var s := SanitizeCollectionName(name, hash);
    var stripped := DropExtension(name);
    CandidateShape(stripped);
    FallbackShape(hash(stripped));
    ShapedNameAccepted(Candidate(stripped));
    assert SanitizedShape(s);
    CandidateOfShaped(s);
    ShapedNameAccepted(s);
  }

  /** Each character outside `[a-zA-Z0-9_-]` is replaced one for one; the others are kept. */
  lemma ReplaceBadCharsSpec(s: string)
    ensures |ReplaceBadChars(s)| == |s|
    ensures forall i :: 0 <= i < |s| ==> NameChar(ReplaceBadChars(s)[i])
    ensures forall i :: 0 <= i < |s| && NameChar(s[i]) ==> ReplaceBadChars(s)[i] == s[i]
  {
  }

  /** The extension is everything from the last dot on; a name without a dot is kept. */
  lemma DropExtensionSpec(name: string)
    ensures '.' !in name ==> DropExtension(name) == name
    ensures '.' in name ==> exists ext :: name == DropExtension(name) + "." + ext && '.' !in ext
  {
    if '.' in name {
      var i := LastIndexOf(name, '.');
      assert name == name[..i] + "." + name[i + 1..];
    }
  }

  /** A space becomes `_` and the extension is dropped. */
  lemma SanitizeSpaceExample(hash: string -> int)
    ensures SanitizeCollectionName("sales data.csv", hash) == "sales_data"
  {
    var name := "sales data.csv";
    assert LastIndexOf(name, '.') == 10;
    assert DropExtension(name) == "sales data";
    assert ReplaceBadChars("sales data") == "sales_data";
    FallbackIffTooLong(name, hash);
  }

  /** A leading digit gets a `_` in front. */
  lemma SanitizeDigitExample(hash: string -> int)
    ensures SanitizeCollectionName("2024-report.json", hash) == "_2024-report"
  {
    var name := "2024-report.json";
    assert LastIndexOf(name, '.') == 11;
    assert DropExtension(name) == "2024-report";
    DigitCandidate();
    FallbackIffTooLong(name, hash);
  }

  lemma DigitCandidate()
    ensures Candidate("2024-report") == "_2024-report"
  {
    var s := "2024-report";
    assert forall i :: 0 <= i < |s| ==> NameChar(s[i]);
    ReplaceNameChars(s);
  }

  /** A name made of name characters only is not changed by the replacement. */
  lemma ReplaceNameChars(s: string)
    requires forall i :: 0 <= i < |s| ==> NameChar(s[i])
    ensures ReplaceBadChars(s) == s
  {
  }

  /** Nothing left before the extension gives `collection`. */
  lemma SanitizeEmptyExample(hash: string -> int)
    ensures SanitizeCollectionName(".csv", hash) == "collection"
  {
    assert LastIndexOf(".csv", '.') == 0;
    assert DropExtension(".csv") == "";
    FallbackIffTooLong(".csv", hash);
  }

  // ---------------------------------------------------------------------
  // infer_field_types
  // ---------------------------------------------------------------------

  /** The mapping from a Python type name to the name shown to users. */
  function MongoTypeName(pythonType: string): string {
    if pythonType in ["int", "int64"] then "number"
    else if pythonType in ["float", "float64"] then "double"
    else if pythonType == "bool" then "boolean"
    else if pythonType == "list" then "array"
    else if pythonType == "dict" then "object"
    else if pythonType == "NoneType" then "null"
    else "string"
  }

  /** The type shown for a value. */
  function FieldType(v: Value): string {
    MongoTypeName(TypeName(v))
  }

  /** The type table, kind by kind: strings, ObjectIds and tuples all show as `string`. */
  lemma FieldTypeTable(v: Value)
    ensures FieldType(v) == match v
      case Int(_) => "number"
      case Float(_) => "double"
      case Bool(_) => "boolean"
      case Arr(_) => "array"
      case Obj(_) => "object"
      case Null => "null"
      case _ => "string"
  {
  }

  /** The inner loop: one document's fields, each typed only if not yet present. */
  method AddFieldTypes(types0: seq<(string, string)>, doc: Document) returns (types: seq<(string, string)>)
    ensures types == AddFirstSeen(types0, doc, FieldType)
  {
    types := types0;
    for j := 0 to |doc|
      invariant types == AddFirstSeen(types0, doc[..j], FieldType)
    {
      assert doc[..j + 1][..j] == doc[..j];
      var (name, value) := doc[j];
      if !HasKey(types, name) {
        types := types + [(name, FieldType(value))];
      }
    }
    assert doc[..|doc|] == doc;
  }

  /** `infer_field_types` */
  method InferFieldTypes(documents: seq<Document>) returns (fieldTypes: seq<(string, string)>)
    ensures fieldTypes == FirstSeen(documents, FieldType)
  {
    fieldTypes := [];
    for i := 0 to |documents|
      invariant fieldTypes == FirstSeen(documents[..i], FieldType)
    {
      assert documents[..i + 1][..i] == documents[..i];
      fieldTypes := AddFieldTypes(fieldTypes, documents[i]);
    }
    assert documents[..|documents|] == documents;
  }

  /**
   * The inferred table has one entry per field name occurring in any
   * document, no name twice, each typed by its first occurrence in document
   * order; later documents never overwrite it.
   */
  lemma InferredTypes(documents: seq<Document>, k: string)
    ensures var t := FirstSeen(documents, FieldType);
      DistinctKeys(t)
      && (HasKey(t, k) <==> exists i :: 0 <= i < |documents| && HasKey(documents[i], k))
      && Lookup(t, k) == MapOption(FirstValue(documents, k), FieldType)
  {
    FirstSeenSpec(documents, FieldType, k);
    FirstValueSome(documents, k);
  }

  /** Some document has key `k` exactly when a first value exists. */
  lemma {:induction false} FirstValueSome(docs: seq<Document>, k: string)
    ensures FirstValue(docs, k).Some? <==> exists i :: 0 <= i < |docs| && HasKey(docs[i], k)
    decreases |docs|
  {
    if docs != [] {
      FirstValueSome(docs[1..], k);
      assert forall i :: 1 <= i < |docs| ==> docs[i] == docs[1..][i - 1];
      if exists i :: 0 <= i < |docs| && HasKey(docs[i], k) {
        var i :| 0 <= i < |docs| && HasKey(docs[i], k);
        if i > 0 {
          assert HasKey(docs[1..][i - 1], k);
        }
      }
    }
  }
}
