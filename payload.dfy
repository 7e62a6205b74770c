// `estimateVectorSize` and `createPayloadChunks` of src/server/pinecone.ts: the
// records of one video are grouped into upsert batches whose estimated size stays
// within the payload limit, by the same greedy procedure as the chunker.
module Payload {
  import opened Types
  import opened Seqs
  import Greedy

  /** The payload limit the orchestrator passes: 2 MiB. */
  const MaxPayloadSize: int := 2 * 1024 * 1024

  /** Estimated serialized size of a record: eight bytes per value, the length of its
      metadata's JSON text, and the length of its id. The JSON serializer is not
      modelled; `jsonLength` gives the length of the text it would produce. */
  function EstimateVectorSize(v: Record, jsonLength: Metadata -> nat): nat
  {
    |v.values| * 8 + jsonLength(v.metadata) + |v.id|
  }

  /** The weight the batcher uses. */
  function SizeOf(jsonLength: Metadata -> nat): Record -> nat
  {
    v => EstimateVectorSize(v, jsonLength)
  }

  /** Total number of values, of metadata JSON characters and of id characters in a batch. */
  function ValueCount(batch: seq<Record>): nat
  {
    if batch == [] then 0 else ValueCount(batch[..|batch| - 1]) + |batch[|batch| - 1].values|
  }

  function JsonTotal(batch: seq<Record>, jsonLength: Metadata -> nat): nat
  {
    if batch == [] then 0 else JsonTotal(batch[..|batch| - 1], jsonLength) + jsonLength(batch[|batch| - 1].metadata)
  }

  function IdTotal(batch: seq<Record>): nat
  {
    if batch == [] then 0 else IdTotal(batch[..|batch| - 1]) + |batch[|batch| - 1].id|
  }

  /** A batch's estimated size is eight bytes per value it carries, plus all its metadata
      JSON and all its ids. */
  lemma {:induction false} BatchSize(batch: seq<Record>, jsonLength: Metadata -> nat)
    ensures Greedy.Weight(batch, SizeOf(jsonLength))
      == 8 * ValueCount(batch) + JsonTotal(batch, jsonLength) + IdTotal(batch)
    decreases |batch|
  {
    if batch != [] {
      BatchSize(batch[..|batch| - 1], jsonLength);
    }
  }

  /** The upsert batches for `vectors` under the limit `maxPayloadSize`, in order. */
  method CreatePayloadChunks(vectors: seq<Record>, maxPayloadSize: int, jsonLength: Metadata -> nat)
    returns (chunks: seq<seq<Record>>)
    ensures chunks == Greedy.Partition(vectors, SizeOf(jsonLength), maxPayloadSize)
  {
    ghost var size := SizeOf(jsonLength);
    chunks := [];
    var currentChunk: seq<Record> := [];
    var currentChunkSize := 0;
    for i := 0 to |vectors|
      invariant Greedy.Scan(vectors[..i], size, maxPayloadSize)
        == Greedy.State(chunks, currentChunk, currentChunkSize)
    {
      var vector := vectors[i];
      var vectorSize := EstimateVectorSize(vector, jsonLength);
      assert vectors[..i + 1][..i] == vectors[..i];
      if currentChunkSize + vectorSize > maxPayloadSize {
        chunks := chunks + [currentChunk];
        currentChunk := [];
        currentChunkSize := 0;
      }
      currentChunk := currentChunk + [vector];
      currentChunkSize := currentChunkSize + vectorSize;
    }
    assert vectors[..|vectors|] == vectors;
    if |currentChunk| > 0 {
      chunks := chunks + [currentChunk];
    }
  }

  /** What the greedy partition promises about the batches: they hold the records in
      order, each fits (or is a lone oversized record), only the first can be empty and
      only when the first record alone is over the limit, and a batch was closed only
      because the next record would have pushed it over the limit. */
  lemma PayloadChunksProperties(vectors: seq<Record>, maxPayloadSize: int, jsonLength: Metadata -> nat)
    ensures var chunks := Greedy.Partition(vectors, SizeOf(jsonLength), maxPayloadSize);
      && Flatten(chunks) == vectors
      && (forall k :: 0 <= k < |chunks| ==> Greedy.Fits(chunks[k], SizeOf(jsonLength), maxPayloadSize))
      && (chunks == [] <==> vectors == [])
      && (forall k :: 0 < k < |chunks| ==> chunks[k] != [])
      && (vectors != [] ==>
           (chunks[0] == [] <==> EstimateVectorSize(vectors[0], jsonLength) > maxPayloadSize))
      && (chunks != [] ==> chunks[|chunks| - 1] != [])
      && (forall k :: 0 < k < |chunks| ==>
           Greedy.Weight(chunks[k - 1], SizeOf(jsonLength)) + EstimateVectorSize(chunks[k][0], jsonLength) > maxPayloadSize)
  {
    var size := SizeOf(jsonLength);
    Greedy.PartitionFlatten(vectors, size, maxPayloadSize);
    Greedy.PartitionFits(vectors, size, maxPayloadSize);
    Greedy.PartitionEmpty(vectors, size, maxPayloadSize);
    Greedy.PartitionEmptyGroups(vectors, size, maxPayloadSize);
    Greedy.PartitionMaximal(vectors, size, maxPayloadSize);
  }
}
