// The records the ingestion pipeline passes around: transcripts, playlist items,
// embeddings and the vector-store records built from them. Field names follow the
// property accesses in src/server/pinecone.ts; src/server/types.ts is not part of
// this model.
module Types {
  import opened Wrappers

  /** One timestamped segment of a transcript. */
  datatype TranscriptPart = TranscriptPart(text: string, start: real, dur: real)

  /** The ordered segments of one video's transcript, or a chunk of them. */
  datatype Transcript = Transcript(videoId: string, parts: seq<TranscriptPart>)

  /** A playlist entry: `contentDetails.videoId` and `snippet.title`. A missing value is
      modelled as the empty string; both are falsy in JavaScript. */
  datatype PlaylistItem = PlaylistItem(videoId: string, title: string)

  /** The input file: the playlist's items and a map from video id to transcript. */
  datatype PlaylistDetailsWithTranscripts = PlaylistDetailsWithTranscripts(
    playlistId: string,
    playlistItems: seq<PlaylistItem>,
    transcripts: map<string, Transcript>)

  /** A JavaScript number inside an embedding: finite, or NaN / an infinity. */
  datatype Number = Finite(value: real) | NonFinite

  /** One embedding as the provider returns it; `None` stands for a `values` field that
      is not an array. */
  datatype EmbeddingObj = EmbeddingObj(values: Option<seq<Number>>)

  /** The metadata attached to every record of a video. */
  datatype Metadata = Metadata(videoId: string, title: string, partIndex: nat, transcriptPart: string)

  /** One vector-store record. */
  datatype Record = Record(id: string, values: seq<Number>, metadata: Metadata)
}
