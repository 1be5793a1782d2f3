/**
 * The vector-store manager of back/qdrant_utils.py: two process-wide
 * resources (the Qdrant client and the embedding model), set lazily by
 * `initialize_qdrant_and_model`, and the `csv_embeddings` collection of
 * past question/answer exchanges that `salva_embedding` appends to and
 * `recupera_simili` searches.
 */
module VectorStore {
  import opened Wrappers
  import opened Errors

  const CollectionName := "csv_embeddings"
  /** The output size of the all-MiniLM-L6-v2 embedding model, and the collection's vector size. */
  const Dimension := 384
  /** The default `top_k` of `recupera_simili`. */
  const DefaultTopK := 3

  datatype Distance = Cosine
  datatype VectorParams = VectorParams(size: nat, distance: Distance)

  /** One point of the collection: a fresh id, the vector and the {question, answer} payload. */
  datatype Record = Record(id: nat, vector: seq<real>, question: string, answer: string)

  /** Why `initialize_qdrant_and_model` raised. */
  datatype InitError = ConnectivityError | ModelLoadError | SchemaSetupError

  /** The context line for one retrieved exchange, as built at line 108. */
  function FormatHit(r: Record): string {
    "Q: " + r.question + "\nA: " + r.answer
  }

  function FormatHits(hits: seq<Record>): (lines: seq<string>)
    ensures |lines| == |hits|
  {
    seq(|hits|, i requires 0 <= i < |hits| => FormatHit(hits[i]))
  }

  /** Split at the first newline. */
  function SplitLine(s: string): Option<(string, string)>
    decreases |s|
  {
    if s == [] then None
    else if s[0] == '\n' then Some(([], s[1..]))
    else
      match SplitLine(s[1..])
      case Some((a, b)) => Some(([s[0]] + a, b))
      case None => None
  }

  /** Read a context line back into its question and answer. */
  function ParseHit(line: string): Option<(string, string)> {
    if |line| >= 3 && line[..3] == "Q: " then
      match SplitLine(line[3..])
      case Some((q, rest)) =>
        if |rest| >= 3 && rest[..3] == "A: " then Some((q, rest[3..])) else None
      case None => None
    else None
  }

  lemma {:induction false} SplitLineAt(a: string, b: string)
    requires '\n' !in a
    ensures SplitLine(a + "\n" + b) == Some((a, b))
    decreases |a|
  {
    if a == [] {
      assert a + "\n" + b == "\n" + b;
    } else {
      assert (a + "\n" + b)[1..] == a[1..] + "\n" + b;
      SplitLineAt(a[1..], b);
      assert [a[0]] + a[1..] == a;
    }
  }

  /**
   * A context line determines the exchange it came from, as long as the
   * question has no newline (the answer may contain any text).
   */
  lemma HitRoundTrip(r: Record)
    requires '\n' !in r.question
    ensures ParseHit(FormatHit(r)) == Some((r.question, r.answer))
  {
    var line := FormatHit(r);
    assert line[3..] == r.question + "\n" + ("A: " + r.answer);
    SplitLineAt(r.question, "A: " + r.answer);
    var rest := "A: " + r.answer;
    assert rest[..3] == "A: " && rest[3..] == r.answer;
  }

  /** What the backend's nearest-neighbour search may return: distinct stored records, at most `limit`. */
  predicate Ranked(hits: seq<Record>, records: seq<Record>, limit: nat) {
    && |hits| <= limit
    && (forall i, j :: 0 <= i < j < |hits| ==> hits[i].id != hits[j].id)
    && (forall i :: 0 <= i < |hits| ==> hits[i] in records)
  }

  /** A search never returns more results than the collection holds. */
  lemma {:induction false} RankedBound(hits: seq<Record>, records: seq<Record>, limit: nat)
    requires Ranked(hits, records, limit)
    ensures |hits| <= |records|
    decreases |hits|
  {
    if hits != [] {
      var h := hits[0];
      var k :| 0 <= k < |records| && records[k] == h;
      var others := records[..k] + records[k + 1..];
      forall j | 0 <= j < |hits| - 1 ensures hits[1..][j] in others {
        assert hits[1..][j] == hits[j + 1];
        assert hits[j + 1].id != h.id;
        var m :| 0 <= m < |records| && records[m] == hits[j + 1];
        if m < k { assert others[m] == records[m]; } else { assert others[m - 1] == records[m]; }
      }
      RankedBound(hits[1..], others, limit);
    }
  }

  class Manager {
    /** `client is not None` */
    var clientSet: bool
    /** `embedding_model is not None` */
    var modelSet: bool
    /** The configuration of `csv_embeddings`, None while it has not been created. */
    var collection: Option<VectorParams>
    var records: seq<Record>
    /** Every id issued so far; `uuid4()` is modelled as the counter `nextId`. */
    var ids: set<nat>
    var nextId: nat
    /** `embedding_model.encode`: a deterministic function of the text. */
    const embed: string -> seq<real>
    /**
     * `client.search` over the stored points: the backend's cosine ranking of
     * the records for a query vector, with a result limit, left abstract.
     */
    const search: (seq<real>, seq<Record>, nat) -> seq<Record>

    ghost predicate Valid()
      reads this
    {
      && (forall q :: |embed(q)| == Dimension)
      && (forall v, rs, l :: Ranked(search(v, rs, l), rs, l))
      && (collection.Some? ==> collection == Some(VectorParams(Dimension, Cosine)))
      && (records != [] ==> collection.Some?)
      && (forall i :: 0 <= i < |records| ==> records[i].id in ids)
      && (forall i :: 0 <= i < |records| ==> records[i].vector == embed(records[i].question))
      && (forall i, j :: 0 <= i < j < |records| ==> records[i].id != records[j].id)
      && (forall id :: id in ids ==> id < nextId)
    }

    predicate Ready()
      reads this
    {
      clientSet && modelSet
    }

    /** The module as imported: both globals None, no collection yet. */
    constructor (embed: string -> seq<real>, search: (seq<real>, seq<Record>, nat) -> seq<Record>)
      requires forall q :: |embed(q)| == Dimension
      requires forall v, rs, l :: Ranked(search(v, rs, l), rs, l)
      ensures Valid()
      ensures !clientSet && !modelSet && collection == None && records == []
      ensures this.embed == embed && this.search == search
    {
      clientSet, modelSet := false, false;
      collection := None;
      records, ids, nextId := [], {}, 0;
      this.embed, this.search := embed, search;
    }

    /**
     * `initialize_qdrant_and_model`. The outcomes of the three calls into
     * foreign code are parameters: whether `get_collections()` succeeds, whether
     * the model loads, whether `recreate_collection` succeeds.
     */
    method Initialize(reachable: bool, modelLoads: bool, recreateOk: bool) returns (r: Outcome<InitError>)
      requires Valid()
      modifies this
      ensures Valid()
      ensures clientSet
      ensures !old(clientSet) && !reachable ==>
        r == Fail(ConnectivityError) && modelSet == old(modelSet)
      ensures (old(clientSet) || reachable) ==>
        modelSet == (old(modelSet) || modelLoads)
      ensures (old(clientSet) || reachable) && !old(modelSet) && !modelLoads ==>
        r == Fail(ModelLoadError)
      ensures (old(clientSet) || reachable) && (old(modelSet) || modelLoads) ==>
        r == (if recreateOk then Pass else Fail(SchemaSetupError))
      ensures r.Pass? ==> collection == Some(VectorParams(Dimension, Cosine)) && records == []
      ensures r.Fail? ==> collection == old(collection) && records == old(records)
      ensures ids == old(ids) && nextId == old(nextId)
    {
      if !clientSet {
        clientSet := true;
        if !reachable {
          return Fail(ConnectivityError);
        }
      }
      if !modelSet {
        if !modelLoads {
          return Fail(ModelLoadError);
        }
        modelSet := true;
      }
      if !recreateOk {
        return Fail(SchemaSetupError);
      }
      collection := Some(VectorParams(Dimension, Cosine));
      records := [];
      r := Pass;
    }

    /**
     * `salva_embedding`: refuses to run before both resources are set;
     * otherwise inserts one new record under a fresh id, never overwriting.
     * `backendOk` is whether the remote `client.upsert` call goes through.
     */
    method SaveEmbedding(question: string, answer: string, backendOk: bool) returns (r: Outcome<Exception>)
      requires Valid()
      modifies this
      ensures Valid()
      ensures clientSet == old(clientSet) && modelSet == old(modelSet) && collection == old(collection)
      ensures !old(Ready()) ==> r == Fail(NotInitialized)
      ensures old(Ready()) ==>
        r == (if old(collection).None? then Fail(CollectionNotFound(CollectionName))
              else if backendOk then Pass else Fail(UpsertFailed))
      ensures r.Pass? ==>
        && old(nextId) !in old(ids)
        && records == old(records) + [Record(old(nextId), embed(question), question, answer)]
        && ids == old(ids) + {old(nextId)} && nextId == old(nextId) + 1
      ensures r.Fail? ==> records == old(records) && ids == old(ids) && nextId == old(nextId)
    {
      if !Ready() {
        return Fail(NotInitialized);
      }
      var vector := embed(question);
      if collection.None? {
        return Fail(CollectionNotFound(CollectionName));
      }
      if !backendOk {
        return Fail(UpsertFailed);
      }
      var id := nextId;
      nextId := nextId + 1;
      ids := ids + {id};
      records := records + [Record(id, vector, question, answer)];
      r := Pass;
    }

    /**
     * `recupera_simili`: refuses to run before both resources are set;
     * otherwise searches with the question's embedding, limit `topK`, and
     * formats each result, in the backend's order. Reads the collection only.
     */
    method RetrieveSimilar(question: string, topK: nat := DefaultTopK)
      returns (r: Result<seq<string>, Exception>, ghost hits: seq<Record>)
      requires Valid()
      ensures !Ready() ==> r == Failure(NotInitialized)
      ensures Ready() && collection.None? ==> r == Failure(CollectionNotFound(CollectionName))
      ensures Ready() && collection.Some? ==>
        && hits == search(embed(question), records, topK)
        && Ranked(hits, records, topK)
        && r == Success(FormatHits(hits))
        && forall i :: 0 <= i < |hits| ==> r.value[i] == FormatHit(hits[i])
    {
      hits := [];
      if !Ready() {
        return Failure(NotInitialized), hits;
      }
      var query := embed(question);
      if collection.None? {
        return Failure(CollectionNotFound(CollectionName)), hits;
      }
      var found := search(query, records, topK);
      hits := found;
      r := Success(FormatHits(found));
    }
  }
}
