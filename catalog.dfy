/**
 * The document database the commands talk to (the MojDb client), reduced to
 * what the commands send and what they read back: queries with equality
 * clauses, the write requests, and responses carrying an error code and an
 * optional `results` array. The database itself is an abstract store from
 * the kind a query names to the documents that query sees.
 */
module Catalog {
  import opened Wrappers
  import opened Json

  /** `MojDbCollationPrimary` compares strings ignoring case and accents; no collation is exact. */
  datatype Collation = Exact | Primary

  /** One `where(field, OpEq, value[, collation])` clause. */
  datatype Clause = Clause(field: string, value: Value, collation: Collation)

  datatype Query = Query(select: seq<string>, from: string, where: seq<Clause>)

  /** The requests the commands issue. */
  datatype Request =
    | Find(query: Query)
    | Put(objects: seq<Object>)
    | Merge(objects: seq<Object>)
    | Del(ids: seq<Value>, purge: bool)
    | PutKind(kind: Value)
    | DelKind(kindId: string)
    | PutPermissions(body: Object)
    | GenerateThumbnails(id: Value)

  /** A reply: the error code handed to the slot and the `results` field, if any. */
  datatype Response = Response(err: int, results: Option<seq<Value>>)

  /** Per kind named in `from`, the documents a query on it sees (in store order). */
  type Store = map<string, seq<Object>>

  /** A document value matches a clause value; `key` is the primary collation's sort key. */
  predicate ValueMatches(doc: Value, wanted: Value, collation: Collation, key: string -> string) {
    match collation
    case Exact => doc == wanted
    case Primary => if doc.Str? && wanted.Str? then key(doc.s) == key(wanted.s) else doc == wanted
  }

  /** A document satisfies every clause: it has the field and the value matches. */
  predicate Satisfies(doc: Object, where: seq<Clause>, key: string -> string) {
    forall i :: 0 <= i < |where| ==>
      where[i].field in doc && ValueMatches(doc[where[i].field], where[i].value, where[i].collation, key)
  }

  /** The documents satisfying the clauses, in store order. */
  function Matching(docs: seq<Object>, where: seq<Clause>, key: string -> string): (r: seq<Object>)
    ensures forall d :: d in r ==> d in docs && Satisfies(d, where, key)
    decreases |docs|
  {
    if docs == [] then []
    else
      var last := docs[|docs| - 1];
      Matching(docs[..|docs| - 1], where, key) + (if Satisfies(last, where, key) then [last] else [])
  }

  /** The indices of the documents that satisfy the clauses. */
  function MatchIndices(docs: seq<Object>, where: seq<Clause>, key: string -> string): set<nat> {
    set i: nat | i < |docs| && Satisfies(docs[i], where, key)
  }

  /** `select`: the selected fields of a document. */
  function Selected(doc: Object, select: seq<string>): Object {
    map f | f in select && f in doc :: doc[f]
  }

  function SelectAll(docs: seq<Object>, select: seq<string>): (r: seq<Value>)
    ensures |r| == |docs|
    ensures forall i :: 0 <= i < |docs| ==> r[i] == Obj(Selected(docs[i], select))
    decreases |docs|
  {
    if docs == [] then [] else [Obj(Selected(docs[0], select))] + SelectAll(docs[1..], select)
  }

  /** The answer a successful find gets from the store. */
  function Answer(store: Store, q: Query, key: string -> string): (r: Response)
    ensures r.err == 0 && r.results.Some?
  {
    var docs := if q.from in store then store[q.from] else [];
    Response(0, Some(SelectAll(Matching(docs, q.where, key), q.select)))
  }

  /** The size of the `results` a find gets is the number of documents satisfying its clauses. */
  lemma {:induction false} MatchingCount(docs: seq<Object>, where: seq<Clause>, key: string -> string)
    ensures |Matching(docs, where, key)| == |MatchIndices(docs, where, key)|
    decreases |docs|
  {
    if docs != [] {
      var n := |docs| - 1;
      var init := docs[..n];
      MatchingCount(init, where, key);
      var before := MatchIndices(init, where, key);
      assert forall i: nat :: i < n ==> init[i] == docs[i];
      if Satisfies(docs[n], where, key) {
        assert MatchIndices(docs, where, key) == before + {n};
        assert n !in before;
      } else {
        assert MatchIndices(docs, where, key) == before;
      }
    }
  }

  /** Hence the answer's result count. */
  lemma AnswerCount(store: Store, q: Query, key: string -> string)
    requires q.from in store
    ensures |Answer(store, q, key).results.value| == |MatchIndices(store[q.from], q.where, key)|
  {
    MatchingCount(store[q.from], q.where, key);
  }
}
