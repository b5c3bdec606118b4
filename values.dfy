/**
 * The dynamically typed Python values that flow through the application:
 * what `json.loads` produces from model output, what pymongo returns as a
 * document, and what the validators receive. A dict is an ordered sequence
 * of (key, value) pairs, because Python dicts iterate in insertion order.
 */
module Values {

  datatype Option<T> = None | Some(value: T)

  function MapOption<T, U>(o: Option<T>, f: T -> U): Option<U> {
    match o
    case None => None
    case Some(x) => Some(f(x))
  }

  /**
   * A Python value: None, bool, int, float (a finite double, modelled by its
   * exact value), str, a BSON ObjectId (by its hexadecimal text), list,
   * tuple, or dict with string keys.
   */
  datatype Value =
    | Null
    | Bool(b: bool)
    | Int(i: int)
    | Float(r: real)
    | Str(s: string)
    | Oid(hex: string)
    | Arr(elems: seq<Value>)
    | Tuple(items: seq<Value>)
    | Obj(fields: seq<(string, Value)>)

  /** A document: the top-level dict of a record. */
  type Document = seq<(string, Value)>

  /** Python truthiness (`if v:`); an ObjectId is always true. */
  predicate Truthy(v: Value) {
    match v
    case Null => false
    case Bool(b) => b
    case Int(i) => i != 0
    case Float(r) => r != 0.0
    case Str(s) => s != ""
    case Oid(_) => true
    case Arr(e) => e != []
    case Tuple(t) => t != []
    case Obj(f) => f != []
  }

  /** `dict.get(k)` on an ordered association list: the first entry with key `k`. */
  function Lookup<T>(t: seq<(string, T)>, k: string): (r: Option<T>)
    ensures r.None? <==> forall i :: 0 <= i < |t| ==> t[i].0 != k
  {
    if t == [] then None
    else if t[0].0 == k then Some(t[0].1)
    else Lookup(t[1..], k)
  }

  /** `k in d` */
  predicate HasKey<T>(t: seq<(string, T)>, k: string) {
    Lookup(t, k).Some?
  }

  /** Position of the first entry with key `k`. */
  function KeyIndex<T>(t: seq<(string, T)>, k: string): (i: nat)
    requires HasKey(t, k)
    ensures i < |t| && t[i].0 == k && Lookup(t, k) == Some(t[i].1)
  {
    if t[0].0 == k then 0 else 1 + KeyIndex(t[1..], k)
  }

  /** Keys are pairwise distinct, as in every Python dict. */
  predicate DistinctKeys<T>(t: seq<(string, T)>) {
    forall i, j :: 0 <= i < j < |t| ==> t[i].0 != t[j].0
  }

  lemma {:induction false} LookupAppend<T>(t: seq<(string, T)>, k2: string, v: T, k: string)
    ensures Lookup(t + [(k2, v)], k)
         == if HasKey(t, k) then Lookup(t, k) else if k2 == k then Some(v) else None
  {
    if t != [] {
      assert (t + [(k2, v)])[1..] == t[1..] + [(k2, v)];
      LookupAppend(t[1..], k2, v, k);
    }
  }

  /**
   * The value Python compares numerically: `True == 1` and `1.0 == 1`, so
   * bool, int and float share one numeric view.
   */
  function NumericValue(v: Value): Option<real> {
    match v
    case Bool(b) => Some(if b then 1.0 else 0.0)
    case Int(i) => Some(i as real)
    case Float(r) => Some(r)
    case _ => None
  }

  /** Hashable in Python: no list or dict anywhere (a tuple is hashable when its items are). */
  predicate Hashable(v: Value) {
    match v
    case Arr(_) => false
    case Obj(_) => false
    case Tuple(items) => forall i :: 0 <= i < |items| ==> Hashable(items[i])
    case _ => true
  }

  /**
   * The representative of `v`'s class under Python `==` for hashable
   * values: numbers collapse onto their numeric view, so that a Python set
   * containing `1`, `1.0` and `True` has one element.
   */
  function EqKey(v: Value): Value {
    match v
    case Bool(_) => Float(NumericValue(v).value)
    case Int(_) => Float(NumericValue(v).value)
    case Tuple(items) => Tuple(seq(|items|, i requires 0 <= i < |items| => EqKey(items[i])))
    case _ => v
  }

  // ---------------------------------------------------------------------
  // First-occurrence tables: a dict filled from documents in order, where a
  // key is written only when it is not yet present.
  // ---------------------------------------------------------------------

  /** Add the fields of `doc`, in order, whose keys `t` does not have yet. */
  function AddFirstSeen<T>(t: seq<(string, T)>, doc: Document, f: Value -> T): (r: seq<(string, T)>)
    ensures |t| <= |r| && r[..|t|] == t
    decreases |doc|
  {
    if doc == [] then t
    else
      var t' := AddFirstSeen(t, doc[..|doc| - 1], f);
      var (k, v) := doc[|doc| - 1];
      if HasKey(t', k) then t' else t' + [(k, f(v))]
  }

  /** The table built from all documents, each key mapped by `f` at its first occurrence. */
  function FirstSeen<T>(docs: seq<Document>, f: Value -> T): seq<(string, T)>
    decreases |docs|
  {
    if docs == [] then []
    else AddFirstSeen(FirstSeen(docs[..|docs| - 1], f), docs[|docs| - 1], f)
  }

  /** Reference definition: the value of key `k` in the first document that has it. */
  function FirstValue(docs: seq<Document>, k: string): Option<Value> {
    if docs == [] then None
    else if HasKey(docs[0], k) then Lookup(docs[0], k)
    else FirstValue(docs[1..], k)
  }

  lemma {:induction false} AddFirstSeenLookup<T>(t: seq<(string, T)>, doc: Document, f: Value -> T, k: string)
    ensures Lookup(AddFirstSeen(t, doc, f), k)
         == if HasKey(t, k) then Lookup(t, k) else MapOption(Lookup(doc, k), f)
    decreases |doc|
  {
    if doc != [] {
      var init := doc[..|doc| - 1];
      var (k2, v) := doc[|doc| - 1];
      assert doc == init + [(k2, v)];
      AddFirstSeenLookup(t, init, f, k);
      LookupAppend(init, k2, v, k);
      var t' := AddFirstSeen(t, init, f);
      if !HasKey(t', k2) {
        LookupAppend(t', k2, f(v), k);
      }
    }
  }

  lemma {:induction false} AddFirstSeenDistinct<T>(t: seq<(string, T)>, doc: Document, f: Value -> T)
    requires DistinctKeys(t)
    ensures DistinctKeys(AddFirstSeen(t, doc, f))
    decreases |doc|
  {
    if doc != [] {
      AddFirstSeenDistinct(t, doc[..|doc| - 1], f);
    }
  }

  lemma {:induction false} FirstValueAppend(docs: seq<Document>, last: Document, k: string)
    ensures FirstValue(docs + [last], k)
         == if FirstValue(docs, k).Some? then FirstValue(docs, k) else Lookup(last, k)
  {
    if docs == [] {
      assert [] + [last] == [last];
      assert FirstValue([last][1..], k) == None;
    } else {
      assert (docs + [last])[0] == docs[0];
      assert (docs + [last])[1..] == docs[1..] + [last];
      FirstValueAppend(docs[1..], last, k);
    }
  }

  /**
   * The table built by first-occurrence filling has one entry per key that
   * occurs in any document, no key twice, and maps each key by `f` at the
   * value of its first occurrence in document order: later documents never
   * overwrite an entry.
   */
  lemma {:induction false} FirstSeenSpec<T>(docs: seq<Document>, f: Value -> T, k: string)
    ensures DistinctKeys(FirstSeen(docs, f))
    ensures Lookup(FirstSeen(docs, f), k) == MapOption(FirstValue(docs, k), f)
    decreases |docs|
  {
    if docs != [] {
      var init := docs[..|docs| - 1];
      var last := docs[|docs| - 1];
      assert docs == init + [last];
      FirstSeenSpec(init, f, k);
      AddFirstSeenDistinct(FirstSeen(init, f), last, f);
      AddFirstSeenLookup(FirstSeen(init, f), last, f, k);
      FirstValueAppend(init, last, k);
    }
  }

  /** Filling from more documents only appends to the table built so far. */
  lemma FirstSeenExtends<T>(docs: seq<Document>, more: Document, f: Value -> T)
    ensures var t := FirstSeen(docs, f);
      |t| <= |FirstSeen(docs + [more], f)| && FirstSeen(docs + [more], f)[..|t|] == t
  {
    assert (docs + [more])[..|docs|] == docs;
  }

  /** `{k: f(v) for k, v in t.items()}` */
  function MapValues<T, U>(t: seq<(string, T)>, f: T -> U): (r: seq<(string, U)>)
    ensures |r| == |t|
  {
    seq(|t|, i requires 0 <= i < |t| => (t[i].0, f(t[i].1)))
  }

  /** Looking a key up in the mapped table maps the looked-up value. */
  lemma {:induction false} LookupMapValues<T, U>(t: seq<(string, T)>, f: T -> U, k: string)
    ensures Lookup(MapValues(t, f), k) == MapOption(Lookup(t, k), f)
    decreases |t|
  {
    if t != [] {
      assert MapValues(t, f)[1..] == MapValues(t[1..], f);
      LookupMapValues(t[1..], f, k);
    }
  }

  lemma MapValuesSnoc<T, U>(t: seq<(string, T)>, x: (string, T), f: T -> U)
    ensures MapValues(t + [x], f) == MapValues(t, f) + [(x.0, f(x.1))]
  {
  }
}
