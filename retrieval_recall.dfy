/**
 * `retrieve_relevant_apis`: embeds every chunk (or loads the cached
 * embeddings and index), builds a flat L2 index whose vector `i` is the
 * embedding of chunk `i`, searches it with the embedded query and maps every
 * returned slot back to the chunk at that position.
 *
 * The embedding model and the index search are parameters: `embed` maps a
 * text to a vector and `search` returns (slot, distance) pairs, with slot
 * -1 meaning "no match". Distances are abstract integers.
 */
module RetrievalRecall {
  import opened Wrappers
  import opened RetrievalChunks

  type Vector = seq<real>

  /** One entry of `embedded_chunks`: a chunk and the embedding of its text. */
  datatype EmbeddedChunk = EmbeddedChunk(chunk: Chunk, embedding: Vector)

  /** A flat L2 index: its dimension and its vectors, slot by slot. */
  datatype FlatIndex = FlatIndex(dimension: nat, vectors: seq<Vector>)

  /** One search result: a slot of the index (or -1) and its distance. */
  datatype Hit = Hit(slot: int, distance: int)

  /** A recalled endpoint: the chunk's path, verb and description, and the distance as score. */
  datatype Candidate = Candidate(path: string, verb: string, description: string, score: int)

  datatype RecallError =
    | NoChunks              // `embedded_chunks[0]` on an empty list
    | RaggedEmbeddings      // embeddings of different lengths cannot form one matrix
    | SlotOutOfRange(slot: int)  // `embedded_chunks[idx]` outside the list

  /** The list comprehension building `embedded_chunks`, one entry per chunk, in order. */
  function Embed(chunks: seq<Chunk>, embed: string -> Vector): (embedded: seq<EmbeddedChunk>)
    ensures |embedded| == |chunks|
    ensures forall i :: 0 <= i < |chunks| ==>
      embedded[i].chunk == chunks[i] && embedded[i].embedding == embed(chunks[i].text)
  {
    seq(|chunks|, i requires 0 <= i < |chunks| => EmbeddedChunk(chunks[i], embed(chunks[i].text)))
  }

  predicate SameLength(embedded: seq<EmbeddedChunk>, dimension: nat) {
    forall i :: 0 <= i < |embedded| ==> |embedded[i].embedding| == dimension
  }

  /**
   * The index rebuild: the dimension is read from the first embedding (an
   * error on an empty list), and the vectors are added in list order.
   */
  function BuildIndex(embedded: seq<EmbeddedChunk>): (r: Result<FlatIndex, RecallError>)
    ensures |embedded| == 0 ==> r == Failure(NoChunks)
    ensures r.Success? <==> |embedded| > 0 && SameLength(embedded, |embedded[0].embedding|)
    ensures r.Success? ==>
      r.value.dimension == |embedded[0].embedding| &&
      |r.value.vectors| == |embedded| &&
      forall i :: 0 <= i < |embedded| ==>
        r.value.vectors[i] == embedded[i].embedding && |r.value.vectors[i]| == r.value.dimension
  {
    if |embedded| == 0 then Failure(NoChunks)
    else
      var dimension := |embedded[0].embedding|;
      if SameLength(embedded, dimension) then
        Success(FlatIndex(dimension, seq(|embedded|, i requires 0 <= i < |embedded| => embedded[i].embedding)))
      else
        Failure(RaggedEmbeddings)
  }

  /** Slot `i` of the index, entry `i` of `embedded_chunks` and chunk `i` belong together. */
  predicate Aligned(chunks: seq<Chunk>, embedded: seq<EmbeddedChunk>, index: FlatIndex) {
    |embedded| == |chunks| && |index.vectors| == |chunks| &&
    forall i :: 0 <= i < |chunks| ==>
      embedded[i].chunk == chunks[i] && index.vectors[i] == embedded[i].embedding
  }

  /** A rebuild from the chunks fails only without chunks or with ragged embeddings, and is otherwise aligned. */
  lemma RebuildIsAligned(chunks: seq<Chunk>, embed: string -> Vector)
    ensures var embedded := Embed(chunks, embed);
      match BuildIndex(embedded)
      case Success(index) => Aligned(chunks, embedded, index) && |chunks| > 0
      case Failure(e) => e == NoChunks <==> |chunks| == 0
  {
  }

  /** Python list indexing: a negative index counts from the end. */
  function PyIndex(slot: int, n: nat): int {
    if slot < 0 then slot + n else slot
  }

  function CandidateOf(chunk: Chunk, distance: int): Candidate {
    Candidate(chunk.path, chunk.verb, chunk.description, distance)
  }

  /** The hits that name a slot, in search order. */
  function Kept(hits: seq<Hit>): (kept: seq<Hit>)
    ensures |kept| <= |hits|
    ensures forall h :: h in kept <==> h in hits && h.slot != -1
    decreases |hits|
  {
    if |hits| == 0 then []
    else
      var last := hits[|hits| - 1];
      var prefix := Kept(hits[..|hits| - 1]);
      assert forall h :: h in hits <==> h in hits[..|hits| - 1] || h == last;
      if last.slot == -1 then prefix else prefix + [last]
  }

  /**
   * The loop over the search results: -1 is skipped, any other slot is
   * looked up in `embedded_chunks` (raising once it is out of range) and
   * paired with the distance at the same position.
   */
  function Recall(embedded: seq<EmbeddedChunk>, hits: seq<Hit>): (r: Result<seq<Candidate>, RecallError>)
    ensures r.Success? ==> |r.value| == |Kept(hits)| <= |hits|
    decreases |hits|
  {
    if |hits| == 0 then Success([])
    else
      var last := hits[|hits| - 1];
      match Recall(embedded, hits[..|hits| - 1])
      case Failure(e) => Failure(e)
      case Success(found) =>
        if last.slot == -1 then Success(found)
        else if -|embedded| <= last.slot < |embedded| then
          Success(found + [CandidateOf(embedded[PyIndex(last.slot, |embedded|)].chunk, last.distance)])
        else Failure(SlotOutOfRange(last.slot))
  }

  /** The slots `search` may return for an index of `n` vectors. */
  predicate WellFormed(hits: seq<Hit>, n: nat) {
    forall i :: 0 <= i < |hits| ==> hits[i].slot == -1 || 0 <= hits[i].slot < n
  }

  /** Recall fails exactly when some slot other than -1 lies outside the list (negative slots wrap). */
  lemma {:induction false} RecallFailsOnlyOutOfRange(embedded: seq<EmbeddedChunk>, hits: seq<Hit>)
    ensures Recall(embedded, hits).Failure? <==>
      exists i :: 0 <= i < |hits| && hits[i].slot != -1 && !(-|embedded| <= hits[i].slot < |embedded|)
    ensures Recall(embedded, hits).Failure? ==> Recall(embedded, hits).error.SlotOutOfRange?
    decreases |hits|
  {
    if |hits| > 0 {
      var front := hits[..|hits| - 1];
      RecallFailsOnlyOutOfRange(embedded, front);
      assert forall i :: 0 <= i < |front| ==> front[i] == hits[i];
    }
  }

  /**
   * For well-formed hits, recall succeeds and its `j`-th candidate is the
   * entry at the `j`-th kept slot, with that hit's distance.
   */
  lemma {:induction false} RecallOfWellFormed(embedded: seq<EmbeddedChunk>, hits: seq<Hit>)
    requires WellFormed(hits, |embedded|)
    ensures Recall(embedded, hits).Success?
    ensures var found, kept := Recall(embedded, hits).value, Kept(hits);
      |found| == |kept| &&
      forall j :: 0 <= j < |kept| ==>
        0 <= kept[j].slot < |embedded| &&
        found[j] == CandidateOf(embedded[kept[j].slot].chunk, kept[j].distance)
    decreases |hits|
  {
    if |hits| > 0 {
      var front := hits[..|hits| - 1];
      assert WellFormed(front, |embedded|) by {
        assert forall i :: 0 <= i < |front| ==> front[i] == hits[i];
      }
      RecallOfWellFormed(embedded, front);
      assert hits[|hits| - 1] in hits;
    }
  }

  /**
   * On an aligned rebuild, every recalled candidate describes the chunk
   * whose embedding sits in the matched slot of the index.
   */
  lemma SlotsNameTheirChunks(chunks: seq<Chunk>, embedded: seq<EmbeddedChunk>, index: FlatIndex,
                             hits: seq<Hit>, j: nat)
    requires Aligned(chunks, embedded, index)
    requires WellFormed(hits, |index.vectors|)
    requires j < |Kept(hits)|
    ensures var slot := Kept(hits)[j].slot;
      0 <= slot < |chunks| &&
      Recall(embedded, hits).Success? &&
      Recall(embedded, hits).value[j] == CandidateOf(chunks[slot], Kept(hits)[j].distance) &&
      index.vectors[slot] == embedded[slot].embedding
  {
    RecallOfWellFormed(embedded, hits);
  }

  /** A search that only reports "no match" recalls nothing. */
  lemma {:induction false} NoMatchRecallsNothing(embedded: seq<EmbeddedChunk>, hits: seq<Hit>)
    requires forall i :: 0 <= i < |hits| ==> hits[i].slot == -1
    ensures Recall(embedded, hits) == Success([])
    decreases |hits|
  {
    if |hits| > 0 {
      NoMatchRecallsNothing(embedded, hits[..|hits| - 1]);
    }
  }

  /** Once a prefix of the hits fails, recall over all of them fails with the same error. */
  lemma {:induction false} FailureIsFinal(embedded: seq<EmbeddedChunk>, hits: seq<Hit>, i: nat)
    requires i <= |hits|
    requires Recall(embedded, hits[..i]).Failure?
    ensures Recall(embedded, hits) == Recall(embedded, hits[..i])
    decreases |hits| - i
  {
    if i < |hits| {
      assert hits[..i + 1][..i] == hits[..i];
      FailureIsFinal(embedded, hits, i + 1);
    } else {
      assert hits[..i] == hits;
    }
  }

  /** The `for i, idx in enumerate(indices[0])` loop, appending to `results`. */
  method AssembleRecall(embedded: seq<EmbeddedChunk>, hits: seq<Hit>)
    returns (outcome: Result<seq<Candidate>, RecallError>)
    ensures outcome == Recall(embedded, hits)
  {
    var results := [];
    var i := 0;
    while i < |hits|
      invariant 0 <= i <= |hits|
      invariant Recall(embedded, hits[..i]) == Success(results)
    {
      var hit := hits[i];
      assert hits[..i + 1][..i] == hits[..i];
      if hit.slot != -1 {
        if !(-|embedded| <= hit.slot < |embedded|) {
          FailureIsFinal(embedded, hits, i + 1);
          return Failure(SlotOutOfRange(hit.slot));
        }
        var entry := embedded[PyIndex(hit.slot, |embedded|)];
        results := results + [CandidateOf(entry.chunk, hit.distance)];
      }
      i := i + 1;
    }
    assert hits[..|hits|] == hits;
    return Success(results);
  }

  /**
   * The module globals `chunks`, `embedded_chunks` and `index`, and the two
   * cache files. A file is None until it has been written.
   */
  class Retriever {
    var chunks: seq<Chunk>
    var embedded: seq<EmbeddedChunk>
    var index: Option<FlatIndex>
    var embeddedFile: Option<seq<EmbeddedChunk>>
    var indexFile: Option<FlatIndex>

    /** A fresh process: nothing loaded; the cache files are whatever the disk holds. */
    constructor(embeddedFile: Option<seq<EmbeddedChunk>>, indexFile: Option<FlatIndex>)
      ensures chunks == [] && embedded == [] && index == None
      ensures this.embeddedFile == embeddedFile && this.indexFile == indexFile
    {
      chunks := [];
      embedded := [];
      index := None;
      this.embeddedFile := embeddedFile;
      this.indexFile := indexFile;
    }

    /** The cache is used only when both files exist; their agreement with the chunks is not checked. */
    predicate CacheComplete()
      reads this
    {
      embeddedFile.Some? && indexFile.Some?
    }

    /**
     * The outcome of a retrieval from the current state. A search that keeps
     * to its bound of `n` hits, as a FAISS search does, yields at most `k`
     * candidates.
     */
    function Recalled(query: string, k: nat, schema: ApiSchema,
                      embed: string -> Vector, search: (FlatIndex, Vector, nat) -> seq<Hit>)
      : (r: Result<seq<Candidate>, RecallError>)
      reads this
      ensures (forall ix, v, n :: |search(ix, v, n)| <= n) && r.Success? ==> |r.value| <= k
    {
      if CacheComplete() then Recall(embeddedFile.value, search(indexFile.value, embed(query), k))
      else
        var embedded := Embed(if |chunks| == 0 then SchemaChunks(schema) else chunks, embed);
        match BuildIndex(embedded)
        case Failure(e) => Failure(e)
        case Success(built) => Recall(embedded, search(built, embed(query), k))
    }

    /**
     * Loads the chunks when none are held, then takes the embeddings and
     * index from the cache or rebuilds both (writing the embeddings file
     * before the index is built), then searches for the embedded query and
     * assembles the recalled candidates.
     */
    method RetrieveRelevantApis(query: string, k: nat, schema: ApiSchema,
                                embed: string -> Vector, search: (FlatIndex, Vector, nat) -> seq<Hit>)
      returns (outcome: Result<seq<Candidate>, RecallError>)
      modifies this
      ensures outcome == old(Recalled(query, k, schema, embed, search))
      ensures (forall ix, v, n :: |search(ix, v, n)| <= n) && outcome.Success? ==> |outcome.value| <= k
      ensures chunks == if |old(chunks)| == 0 then SchemaChunks(schema) else old(chunks)
      ensures old(CacheComplete()) ==>
        embedded == old(embeddedFile).value && index == old(indexFile) &&
        embeddedFile == old(embeddedFile) && indexFile == old(indexFile) &&
        outcome == Recall(embedded, search(index.value, embed(query), k))
      ensures !old(CacheComplete()) ==>
        embedded == Embed(chunks, embed) && embeddedFile == Some(embedded) &&
        match BuildIndex(embedded)
        case Failure(e) => outcome == Failure(e) && index == old(index) && indexFile == old(indexFile)
        case Success(built) =>
          index == Some(built) && indexFile == Some(built) && Aligned(chunks, embedded, built) &&
          outcome == Recall(embedded, search(built, embed(query), k))
    ensures outcome.Success? ==> CacheComplete()
    {
      if |chunks| == 0 {
        chunks := ProcessApiSchema(schema);
      }
      if embeddedFile.Some? && indexFile.Some? {
        index := indexFile;
        embedded := embeddedFile.value;
      } else {
        embedded := Embed(chunks, embed);
        embeddedFile := Some(embedded);
        var built := BuildIndex(embedded);
        if built.Failure? {
          return Failure(built.error);
        }
        RebuildIsAligned(chunks, embed);
        index := Some(built.value);
        indexFile := index;
      }
      var hits := search(index.value, embed(query), k);
      outcome := AssembleRecall(embedded, hits);
    }
  }
}
