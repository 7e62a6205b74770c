// `splitTranscript` of src/server/pinecone.ts: greedy grouping of a transcript's
// parts into chunks whose summed text length stays within the chunk size.
module Chunker {
  import opened Types
  import opened Seqs
  import Greedy

  /** The chunk size the orchestrator passes. */
  const ChunkSize: int := 1000

  /** A part's weight: the length of its text. */
  function TextLength(p: TranscriptPart): nat
  {
    |p.text|
  }

  /** The part lists of a sequence of chunks. */
  function PartsOf(chunks: seq<Transcript>): (r: seq<seq<TranscriptPart>>)
    ensures |r| == |chunks|
    ensures forall k :: 0 <= k < |chunks| ==> r[k] == chunks[k].parts
  {
    seq(|chunks|, k requires 0 <= k < |chunks| => chunks[k].parts)
  }

  /** The chunks `splitTranscript` returns, as a value: each group of the partition,
      labelled with the transcript's video id. */
  function Split(transcript: Transcript, chunkSize: int): (chunks: seq<Transcript>)
    ensures PartsOf(chunks) == Greedy.Partition(transcript.parts, TextLength, chunkSize)
    ensures forall k :: 0 <= k < |chunks| ==> chunks[k].videoId == transcript.videoId
  {
    var p := Greedy.Partition(transcript.parts, TextLength, chunkSize);
    seq(|p|, k requires 0 <= k < |p| => Transcript(transcript.videoId, p[k]))
  }

  /** The chunks of `transcript` for chunk size `chunkSize`, in order. */
  method SplitTranscript(transcript: Transcript, chunkSize: int) returns (chunks: seq<Transcript>)
    ensures chunks == Split(transcript, chunkSize)
  {
    var parts := transcript.parts;
    chunks := [];
    var currentChunk: seq<TranscriptPart> := [];
    var currentTextLength := 0;
    for i := 0 to |parts|
      invariant Greedy.Scan(parts[..i], TextLength, chunkSize)
        == Greedy.State(PartsOf(chunks), currentChunk, currentTextLength)
      invariant forall k :: 0 <= k < |chunks| ==> chunks[k].videoId == transcript.videoId
    {
      var part := parts[i];
      assert parts[..i + 1][..i] == parts[..i];
      if currentTextLength + |part.text| > chunkSize {
        chunks := chunks + [Transcript(transcript.videoId, currentChunk)];
        currentChunk := [];
        currentTextLength := 0;
      }
      currentChunk := currentChunk + [part];
      currentTextLength := currentTextLength + |part.text|;
    }
    assert parts[..|parts|] == parts;
    if |currentChunk| > 0 {
      chunks := chunks + [Transcript(transcript.videoId, currentChunk)];
    }
    SplitDetermined(transcript, chunkSize, chunks);
  }

  /** Chunks are determined by their part lists and their common video id. */
  lemma SplitDetermined(transcript: Transcript, chunkSize: int, chunks: seq<Transcript>)
    requires PartsOf(chunks) == Greedy.Partition(transcript.parts, TextLength, chunkSize)
    requires forall k :: 0 <= k < |chunks| ==> chunks[k].videoId == transcript.videoId
    ensures chunks == Split(transcript, chunkSize)
  {
    var s := Split(transcript, chunkSize);
    assert |PartsOf(s)| == |PartsOf(chunks)|;
    forall k | 0 <= k < |s|
      ensures s[k] == chunks[k]
    {
      assert PartsOf(s)[k] == PartsOf(chunks)[k];
    }
  }

  /** What the chunks a transcript is split into are: its parts, grouped in order within
      the chunk size, only the first chunk possibly empty. */
  lemma SplitProperties(transcript: Transcript, chunkSize: int)
    ensures var chunks := Split(transcript, chunkSize);
      && (forall k :: 0 <= k < |chunks| ==> chunks[k].videoId == transcript.videoId)
      && Flatten(PartsOf(chunks)) == transcript.parts
      && (forall k :: 0 <= k < |chunks| ==> Greedy.Fits(chunks[k].parts, TextLength, chunkSize))
      && (chunks == [] <==> transcript.parts == [])
      && (forall k :: 0 < k < |chunks| ==> chunks[k].parts != [])
      && (transcript.parts != [] ==>
           (chunks[0].parts == [] <==> |transcript.parts[0].text| > chunkSize))
      && (chunks != [] ==> chunks[|chunks| - 1].parts != [])
      && (forall k :: 0 < k < |chunks| ==>
           Greedy.Weight(chunks[k - 1].parts, TextLength) + |chunks[k].parts[0].text| > chunkSize)
  {
    var parts := transcript.parts;
    Greedy.PartitionFlatten(parts, TextLength, chunkSize);
    Greedy.PartitionFits(parts, TextLength, chunkSize);
    Greedy.PartitionEmpty(parts, TextLength, chunkSize);
    Greedy.PartitionEmptyGroups(parts, TextLength, chunkSize);
    Greedy.PartitionMaximal(parts, TextLength, chunkSize);
  }
}
