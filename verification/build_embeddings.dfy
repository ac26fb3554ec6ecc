/**
  The offline build: read the chunk texts, embed them batch by batch and,
  unless there are no chunks at all, write the embedding matrix and the
  similarity index.

  The batch embedding provider is a parameter `embed`; its replies are opaque
  vectors of type `V`.
 */
module BuildEmbeddings {
  import opened Batching

  /** The number of texts sent to the provider per request. */
  const BatchSize: nat := 32

  /** A corpus record; only its `content` field matters to the build. */
  datatype Chunk = Chunk(content: string)

  /** The files the build writes. */
  datatype Artifact = EmbeddingMatrixFile | SimilarityIndexFile

  /** The chunk texts, read in chunk order. */
  function Texts(chunks: seq<Chunk>): (texts: seq<string>)
    ensures |texts| == |chunks|
    ensures forall i :: 0 <= i < |chunks| ==> texts[i] == chunks[i].content
    decreases |chunks|
  {
    if |chunks| == 0 then [] else [chunks[0].content] + Texts(chunks[1..])
  }

  /** The suffix of `xs` from index `i` on, empty once `i` has run past the end. */
  function Drop<T>(xs: seq<T>, i: nat): seq<T> {
    if i >= |xs| then [] else xs[i..]
  }

  /** The batches from `i` on are the slice at `i` followed by the batches from `i + size` on. */
  lemma BatchStep<T>(xs: seq<T>, i: nat, size: nat)
    requires size > 0 && i < |xs|
    ensures Batches(Drop(xs, i), size) ==
            [xs[i..Min(i + size, |xs|)]] + Batches(Drop(xs, i + size), size)
  {
    var rest := xs[i..];
    var n := Min(size, |rest|);
    assert rest[..n] == xs[i..Min(i + size, |xs|)];
    assert rest[n..] == Drop(xs, i + size);
  }

  /**
    Embedding generation: walk the texts in steps of `size`, send each slice
    `texts[i:i+size]` to the provider and append the reply to the rows.
    `calls` records the requests in the order they were made.
   */
  method GenerateEmbeddings<V>(chunks: seq<Chunk>, size: nat, embed: seq<string> -> seq<V>)
    returns (vectors: seq<V>, calls: seq<seq<string>>)
    requires size > 0
    ensures calls == Batches(Texts(chunks), size)
    ensures Flatten(calls) == Texts(chunks)
    ensures WellSized(calls, size)
    ensures vectors == EmbedAll(embed, calls)
  {
    var texts := Texts(chunks);
    vectors := [];
    calls := [];
    var i: nat := 0;
    while i < |texts|
      invariant calls + Batches(Drop(texts, i), size) == Batches(texts, size)
      invariant vectors == EmbedAll(embed, calls)
      decreases |texts| - i
    {
      var batch := texts[i..Min(i + size, |texts|)];
      var reply := embed(batch);
      SendStep(texts, i, size, calls, embed);
      vectors := vectors + reply;
      calls := calls + [batch];
      i := i + size;
    }
    assert calls == Batches(texts, size) by {
      assert Drop(texts, i) == [];
    }
    FlattenBatches(texts, size);
    BatchSizes(texts, size);
  }

  /**
    One turn of the embedding loop: after sending the slice at `i`, the
    requests made so far followed by the batches still to send from `i + size`
    are still all the batches, and the rows gain exactly that slice's reply.
   */
  lemma SendStep<V>(texts: seq<string>, i: nat, size: nat, calls: seq<seq<string>>,
                    embed: seq<string> -> seq<V>)
    requires size > 0 && i < |texts|
    requires calls + Batches(Drop(texts, i), size) == Batches(texts, size)
    ensures var batch := texts[i..Min(i + size, |texts|)];
      && (calls + [batch]) + Batches(Drop(texts, i + size), size) == Batches(texts, size)
      && EmbedAll(embed, calls + [batch]) == EmbedAll(embed, calls) + embed(batch)
  {
    var batch := texts[i..Min(i + size, |texts|)];
    BatchStep(texts, i, size);
    assert (calls + [batch]) + Batches(Drop(texts, i + size), size) ==
           calls + Batches(Drop(texts, i), size);
    EmbedAllAppend(embed, calls, batch);
  }

  /**
    The build's main path: with no chunks it stops before embedding, so the
    provider is never called and nothing is written; otherwise it embeds every
    chunk with the configured batch size and writes both artifacts.
   */
  method Build<V>(chunks: seq<Chunk>, embed: seq<string> -> seq<V>)
    returns (vectors: seq<V>, calls: seq<seq<string>>, written: seq<Artifact>)
    ensures |chunks| == 0 ==> vectors == [] && calls == [] && written == []
    ensures |chunks| > 0 ==>
      && calls == Batches(Texts(chunks), BatchSize)
      && vectors == EmbedAll(embed, calls)
      && written == [EmbeddingMatrixFile, SimilarityIndexFile]
    ensures calls == [] <==> |chunks| == 0
  {
    if |chunks| == 0 {
      return [], [], [];
    }
    vectors, calls := GenerateEmbeddings(chunks, BatchSize, embed);
    written := [EmbeddingMatrixFile, SimilarityIndexFile];
  }

  /**
    With an order-faithful provider the build yields one row per chunk, and
    row `i` is the provider's vector for the text of chunk `i`.
   */
  lemma BuildRowsMatchChunks<V>(chunks: seq<Chunk>, embed: seq<string> -> seq<V>, one: string -> V)
    requires OrderFaithful(embed, one)
    ensures var rows := EmbedAll(embed, Batches(Texts(chunks), BatchSize));
      |rows| == |chunks| && forall i :: 0 <= i < |chunks| ==> rows[i] == one(chunks[i].content)
  {
    RowsMatchInputs(Texts(chunks), BatchSize, embed, one);
  }

  /**
    The build calls the provider ceil(N / 32) times for N chunks: no call for
    no chunks, one call for 1 to 32 chunks, and so on.
   */
  lemma BuildCallCount(chunks: seq<Chunk>)
    ensures |Batches(Texts(chunks), BatchSize)| == (|chunks| + BatchSize - 1) / BatchSize
    ensures IsCeilDiv(|Batches(Texts(chunks), BatchSize)|, |chunks|, BatchSize)
  {
    BatchCount(Texts(chunks), BatchSize);
  }
}
