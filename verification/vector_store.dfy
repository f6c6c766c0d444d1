/**
 * The vector store the backend writes to: a collection of records, each an
 * id, an embedding, a document and its metadata, with the three operations
 * the backend uses (count, add, peek).
 */
module VectorStore {
  import opened Wrappers

  /** An embedding, as the plain list of numbers `.tolist()` produces. */
  type Vector = seq<real>

  type Metadata = map<string, string>

  datatype Record = Record(id: string, embedding: Vector, document: string, metadata: Metadata)

  /** The ids of the records `rs`. */
  function IdsOf(rs: seq<Record>): (ids: set<string>)
    ensures forall k :: 0 <= k < |rs| ==> rs[k].id in ids
    ensures forall id :: id in ids ==> exists k :: 0 <= k < |rs| && rs[k].id == id
  {
    set r | r in rs :: r.id
  }

  /** No two records of `rs` share an id. */
  predicate IdsDistinct(rs: seq<Record>) {
    forall i, j :: 0 <= i < j < |rs| ==> rs[i].id != rs[j].id
  }

  /** Appending a record under an id the store does not hold keeps the ids distinct. */
  lemma AddFreshKeepsIdsDistinct(rs: seq<Record>, rec: Record)
    requires IdsDistinct(rs) && rec.id !in IdsOf(rs)
    ensures IdsDistinct(rs + [rec])
  {
  }

  /** A lookup by id: the first record stored under `id`, if any. */
  function Lookup(rs: seq<Record>, id: string): (r: Option<Record>)
    ensures r.Some? ==> r.value in rs && r.value.id == id
    ensures r.None? <==> id !in IdsOf(rs)
  {
    if rs == [] then None
    else if rs[0].id == id then Some(rs[0])
    else
      var r := Lookup(rs[1..], id);
      assert IdsOf(rs) == {rs[0].id} + IdsOf(rs[1..]);
      r
  }

  /** After appending `rec` under a fresh id, looking that id up finds `rec`. */
  lemma LookupAfterAdd(rs: seq<Record>, rec: Record)
    requires rec.id !in IdsOf(rs)
    ensures Lookup(rs + [rec], rec.id) == Some(rec)
  {
  }

  /** Appending a record does not change what any other id looks up to. */
  lemma {:induction false} LookupOtherAfterAdd(rs: seq<Record>, rec: Record, id: string)
    requires id != rec.id
    ensures Lookup(rs + [rec], id) == Lookup(rs, id)
  {
    if rs != [] {
      assert (rs + [rec])[1..] == rs[1..] + [rec];
      LookupOtherAfterAdd(rs[1..], rec, id);
    }
  }

  /** One column of a peek result, keyed by its name in the result. */
  datatype Column =
    | Ids(ids: seq<string>)
    | Embeddings(vectors: seq<Vector>)
    | Documents(documents: seq<string>)
    | Metadatas(metadatas: seq<Metadata>)

  function Min(a: nat, b: nat): nat {
    if a < b then a else b
  }

  /**
   * The "ids", "documents" and "metadatas" columns of `m` list, row by row,
   * the ids, documents and metadata of `sample`.
   */
  predicate RowsMatch(m: map<string, Column>, sample: seq<Record>) {
    && "ids" in m && m["ids"].Ids? && |m["ids"].ids| == |sample|
    && (forall k :: 0 <= k < |sample| ==> m["ids"].ids[k] == sample[k].id)
    && "documents" in m && m["documents"].Documents? && |m["documents"].documents| == |sample|
    && (forall k :: 0 <= k < |sample| ==> m["documents"].documents[k] == sample[k].document)
    && "metadatas" in m && m["metadatas"].Metadatas? && |m["metadatas"].metadatas| == |sample|
    && (forall k :: 0 <= k < |sample| ==> m["metadatas"].metadatas[k] == sample[k].metadata)
  }

  /**
   * What `peek(limit)` returns: the first `limit` records in store order (all
   * of them when there are fewer), column by column, embeddings included.
   */
  function PeekResult(rs: seq<Record>, limit: nat): (m: map<string, Column>)
    ensures m.Keys == {"ids", "embeddings", "documents", "metadatas"}
    ensures RowsMatch(m, rs[..Min(|rs|, limit)])
    ensures m["embeddings"].Embeddings? && |m["embeddings"].vectors| == Min(|rs|, limit)
    ensures forall k :: 0 <= k < Min(|rs|, limit) ==> m["embeddings"].vectors[k] == rs[k].embedding
  {
    var n := Min(|rs|, limit);
    map[
      "ids" := Ids(seq(n, k requires 0 <= k < n => rs[k].id)),
      "embeddings" := Embeddings(seq(n, k requires 0 <= k < n => rs[k].embedding)),
      "documents" := Documents(seq(n, k requires 0 <= k < n => rs[k].document)),
      "metadatas" := Metadatas(seq(n, k requires 0 <= k < n => rs[k].metadata))
    ]
  }

  /** The store's collection of records, in the order they were added. */
  class Collection {
    var records: seq<Record>
    /** The limits of the peek calls made so far, oldest first. */
    ghost var peeks: seq<nat>

    /** Ids identify records: no two records share one. */
    ghost predicate Valid()
      reads this
    {
      IdsDistinct(records)
    }

    function Ids(): set<string>
      reads this
    {
      IdsOf(records)
    }

    constructor ()
      ensures Valid() && records == [] && peeks == []
    {
      records := [];
      peeks := [];
    }

    /** `count()`: the number of records stored. */
    method Count() returns (n: nat)
      ensures n == |records|
    {
      n := |records|;
    }

    /**
     * `add` of one record. The store either writes the whole record, after
     * all existing ones, or (when it raises `fault`) writes nothing.
     */
    method Add(id: string, embedding: Vector, document: string, metadata: Metadata, fault: Option<string>)
      returns (outcome: Outcome<string>)
      requires Valid() && id !in Ids()
      modifies this
      ensures Valid() && peeks == old(peeks)
      ensures fault.None? ==> outcome.Pass? && records == old(records) + [Record(id, embedding, document, metadata)]
      ensures fault.Some? ==> outcome == Fail(fault.value) && records == old(records)
    {
      if fault.Some? {
        return Fail(fault.value);
      }
      AddFreshKeepsIdsDistinct(records, Record(id, embedding, document, metadata));
      records := records + [Record(id, embedding, document, metadata)];
      outcome := Pass;
    }

    /** `peek(limit)`: reads the first `limit` records without changing any. */
    method Peek(limit: nat) returns (result: map<string, Column>)
      modifies this
      ensures records == old(records) && peeks == old(peeks) + [limit]
      ensures result == PeekResult(records, limit)
    {
      result := PeekResult(records, limit);
      peeks := peeks + [limit];
    }
  }
}
