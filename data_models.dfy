/**
 * The relationship record shared by detection, schema reporting and prompt
 * construction: a directed edge from a field of one collection to a field
 * of another, with a kind and a confidence in [0, 1].
 */
module DataModels {

  /** A confidence score; the record type enforces `0 <= score <= 1`. */
  type Confidence = r: real | 0.0 <= r <= 1.0

  datatype RelationshipType = OneToOne | OneToMany | ManyToMany

  /** The enumeration's string value, as it appears in JSON and in prompts. */
  function TypeValue(t: RelationshipType): (s: string)
    ensures |s| > 0
  {
    match t
    case OneToOne => "one_to_one"
    case OneToMany => "one_to_many"
    case ManyToMany => "many_to_many"
  }

  /** Distinct kinds have distinct string values. */
  lemma TypeValueInjective(a: RelationshipType, b: RelationshipType)
    ensures TypeValue(a) == TypeValue(b) <==> a == b
  {
    if a != b {
      assert TypeValue(a)[0] != TypeValue(b)[0] || |TypeValue(a)| != |TypeValue(b)|;
    }
  }

  datatype FieldRelationship = FieldRelationship(
    sourceCollection: string,
    sourceField: string,
    targetCollection: string,
    targetField: string,
    relationshipType: RelationshipType,
    confidenceScore: Confidence)

  /** The identity of an edge: (source collection, source field, target collection, target field). */
  type PairKey = (string, string, string, string)

  function Key(r: FieldRelationship): PairKey {
    (r.sourceCollection, r.sourceField, r.targetCollection, r.targetField)
  }

  /** The keys of a list of relationships. */
  function Keys(rs: seq<FieldRelationship>): set<PairKey> {
    set r | r in rs :: Key(r)
  }

  /** No two entries share a key. */
  predicate UniqueKeys(rs: seq<FieldRelationship>) {
    forall i, j :: 0 <= i < j < |rs| ==> Key(rs[i]) != Key(rs[j])
  }

  lemma KeysAppend(rs: seq<FieldRelationship>, r: FieldRelationship)
    ensures Keys(rs + [r]) == Keys(rs) + {Key(r)}
  {
    assert forall x :: x in rs + [r] <==> x in rs || x == r;
  }

  /** Appending an edge with a fresh key keeps the keys unique. */
  lemma UniqueKeysAppend(rs: seq<FieldRelationship>, r: FieldRelationship)
    requires UniqueKeys(rs) && Key(r) !in Keys(rs)
    ensures UniqueKeys(rs + [r])
  {
    forall i | 0 <= i < |rs|
      ensures Key((rs + [r])[i]) != Key(r)
    {
      assert rs[i] in rs;
    }
  }

  /** Every key of a prefix is a key of the whole list. */
  lemma KeysPrefix(rs: seq<FieldRelationship>, more: seq<FieldRelationship>)
    requires rs <= more
    ensures Keys(rs) <= Keys(more)
  {
    forall r | r in rs
      ensures Key(r) in Keys(more)
    {
      var k :| 0 <= k < |rs| && rs[k] == r;
      assert more[k] == r;
    }
  }
}
