// Record construction in `upsertVideoTranscriptsForPlaylist` of src/server/pinecone.ts:
// the embeddings of a video's chunks are flattened, chunk by chunk, into records with
// ids `${videoId}-${partIndex}-${i}` and per-chunk metadata; an embedding that is not
// an array of finite numbers aborts the video.
module Records {
  import opened Wrappers
  import opened Types

  /** A video the orchestrator keeps: its id, its transcript and its title. */
  datatype Video = Video(id: string, transcript: Transcript, title: string)

  datatype VideoError = InvalidEmbeddingFormat(videoId: string)

  // ---------------------------------------------------------------------------
  // Decimal rendering of a non-negative integer, as a template literal does it.

  predicate IsDigit(c: char)
  {
    '0' <= c <= '9'
  }

  predicate AllDigits(s: string)
  {
    forall j :: 0 <= j < |s| ==> IsDigit(s[j])
  }

  function Digit(d: nat): (c: char)
    requires d < 10
    ensures IsDigit(c)
  {
    ('0' as int + d) as char
  }

  /** The decimal numeral of n, without leading zeros. */
  function NatToString(n: nat): (s: string)
    ensures s != [] && AllDigits(s)
    ensures s[0] != '0' || n == 0
  {
    if n < 10 then [Digit(n)] else NatToString(n / 10) + [Digit(n % 10)]
  }

  /** The number a run of decimal digits denotes, most significant digit first. */
  function DigitsValue(s: string): nat
    requires AllDigits(s)
  {
    if s == [] then 0 else DigitsValue(s[..|s| - 1]) * 10 + (s[|s| - 1] as int - '0' as int)
  }

  /** The numeral of n reads back as n. */
  lemma {:induction false} NatToStringValue(n: nat)
    ensures DigitsValue(NatToString(n)) == n
    decreases n
  {
    var s := NatToString(n);
    if n >= 10 {
      NatToStringValue(n / 10);
      assert s[..|s| - 1] == NatToString(n / 10);
    }
  }

  /** Distinct numbers have distinct numerals. */
  lemma NatToStringInjective(a: nat, b: nat)
    requires NatToString(a) == NatToString(b)
    ensures a == b
  {
    NatToStringValue(a);
    NatToStringValue(b);
  }

  // ---------------------------------------------------------------------------
  // Record ids.

  /** The id of the i-th embedding of chunk partIndex of video videoId. */
  function RecordId(videoId: string, partIndex: nat, i: nat): string
  {
    videoId + "-" + NatToString(partIndex) + "-" + NatToString(i)
  }

  lemma NoDashInDigits(d: string, j: int)
    requires AllDigits(d) && 0 <= j < |d|
    ensures d[j] != '-'
  {
  }

  /** Two strings ending in a dash and a run of digits: the runs cannot differ in length. */
  lemma DigitRunLength(a1: string, d1: string, a2: string, d2: string)
    requires AllDigits(d1) && AllDigits(d2)
    requires a1 + "-" + d1 == a2 + "-" + d2
    ensures |d1| <= |d2|
  {
    var s := a1 + "-" + d1;
    if |d1| > |d2| {
      assert s[|a2|] == '-';
      NoDashInDigits(d1, |a2| - |a1| - 1);
    }
  }

  /** A string ending in a dash and a run of digits determines where that dash is. */
  lemma SplitAtLastDash(a1: string, d1: string, a2: string, d2: string)
    requires AllDigits(d1) && AllDigits(d2)
    requires a1 + "-" + d1 == a2 + "-" + d2
    ensures a1 == a2 && d1 == d2
  {
    DigitRunLength(a1, d1, a2, d2);
    DigitRunLength(a2, d2, a1, d1);
    var s := a1 + "-" + d1;
    assert a1 == s[..|a1|] && a2 == s[..|a2|];
    assert d1 == s[|a1| + 1..] && d2 == s[|a2| + 1..];
  }

  /** Record ids are unique: the id determines the video, the chunk and the position. */
  lemma RecordIdInjective(v1: string, p1: nat, i1: nat, v2: string, p2: nat, i2: nat)
    requires RecordId(v1, p1, i1) == RecordId(v2, p2, i2)
    ensures v1 == v2 && p1 == p2 && i1 == i2
  {
    SplitAtLastDash(v1 + "-" + NatToString(p1), NatToString(i1), v2 + "-" + NatToString(p2), NatToString(i2));
    SplitAtLastDash(v1, NatToString(p1), v2, NatToString(p2));
    NatToStringInjective(p1, p2);
    NatToStringInjective(i1, i2);
  }

  // ---------------------------------------------------------------------------
  // Flattening the embeddings of all chunks.

  /** The texts of a chunk's parts joined by single spaces (`join(' ')`). */
  function JoinTexts(parts: seq<TranscriptPart>): string
  {
    if parts == [] then ""
    else if |parts| == 1 then parts[0].text
    else JoinTexts(parts[..|parts| - 1]) + " " + parts[|parts| - 1].text
  }

  /** Joining two non-empty lists of parts is joining each, with one space between. */
  lemma {:induction false} JoinTextsAppend(a: seq<TranscriptPart>, b: seq<TranscriptPart>)
    requires a != [] && b != []
    ensures JoinTexts(a + b) == JoinTexts(a) + " " + JoinTexts(b)
    decreases |b|
  {
    var ab := a + b;
    assert ab[|ab| - 1] == b[|b| - 1];
    if |b| == 1 {
      assert ab[..|ab| - 1] == a;
      assert JoinTexts(ab) == JoinTexts(a) + " " + b[0].text;
    } else {
      var b' := b[..|b| - 1];
      assert ab[..|ab| - 1] == a + b';
      JoinTextsAppend(a, b');
      assert JoinTexts(ab) == JoinTexts(a + b') + " " + b[|b| - 1].text;
      assert JoinTexts(b) == JoinTexts(b') + " " + b[|b| - 1].text;
    }
  }

  /** The joined text holds every part's text and one space between consecutive parts. */
  lemma {:induction false} JoinTextsLength(parts: seq<TranscriptPart>)
    requires parts != []
    ensures |JoinTexts(parts)| == TextTotal(parts) + |parts| - 1
    decreases |parts|
  {
    if |parts| > 1 {
      JoinTextsLength(parts[..|parts| - 1]);
    }
  }

  /** The summed length of the parts' texts. */
  function TextTotal(parts: seq<TranscriptPart>): nat
  {
    if parts == [] then 0 else TextTotal(parts[..|parts| - 1]) + |parts[|parts| - 1].text|
  }

  /** `Array.isArray(values) && values.every(Number.isFinite)`. */
  predicate ValidEmbedding(e: EmbeddingObj)
  {
    e.values.Some? && forall j :: 0 <= j < |e.values.value| ==> e.values.value[j].Finite?
  }

  predicate AllValid(embeddings: seq<seq<EmbeddingObj>>)
  {
    forall k, i :: 0 <= k < |embeddings| && 0 <= i < |embeddings[k]| ==> ValidEmbedding(embeddings[k][i])
  }

  /** The pairs (partIndex, i) in the order flatMap visits them, for the first n chunks. */
  function Coordinates(embeddings: seq<seq<EmbeddingObj>>, n: nat): seq<(nat, nat)>
    requires n <= |embeddings|
  {
    if n == 0 then []
    else
      Coordinates(embeddings, n - 1)
      + seq(|embeddings[n - 1]|, i requires 0 <= i < |embeddings[n - 1]| => ((n - 1) as nat, i as nat))
  }

  /** Number of embeddings of the first n chunks. */
  function Offset(embeddings: seq<seq<EmbeddingObj>>, n: int): int
    requires 0 <= n <= |embeddings|
  {
    if n == 0 then 0 else Offset(embeddings, n - 1) + |embeddings[n - 1]|
  }

  function MakeRecord(video: Video, chunks: seq<Transcript>, embeddings: seq<seq<EmbeddingObj>>, k: nat, i: nat): Record
    requires |embeddings| == |chunks| && k < |chunks| && i < |embeddings[k]|
    requires ValidEmbedding(embeddings[k][i])
  {
    Record(RecordId(video.id, k, i), embeddings[k][i].values.value,
           Metadata(video.id, video.title, k, JoinTexts(chunks[k].parts)))
  }

  /** The records of one video, or the error that aborts it. */
  function BuildRecords(video: Video, chunks: seq<Transcript>, embeddings: seq<seq<EmbeddingObj>>)
    : Result<seq<Record>, VideoError>
    requires |embeddings| == |chunks|
  {
    if !AllValid(embeddings) then Err(InvalidEmbeddingFormat(video.id))
    else
      var coords := Coordinates(embeddings, |embeddings|);
      CoordinatesLayout(embeddings, |embeddings|);
      Ok(seq(|coords|, j requires 0 <= j < |coords| => MakeRecord(video, chunks, embeddings, coords[j].0, coords[j].1)))
  }

  lemma {:induction false} CoordinatesLength(embeddings: seq<seq<EmbeddingObj>>, n: nat)
    requires n <= |embeddings|
    ensures |Coordinates(embeddings, n)| == Offset(embeddings, n)
  {
    if n > 0 {
      CoordinatesLength(embeddings, n - 1);
    }
  }

  /** Every pair names an embedding that exists. */
  lemma {:induction false} CoordinatesInRange(embeddings: seq<seq<EmbeddingObj>>, n: nat)
    requires n <= |embeddings|
    ensures forall j :: 0 <= j < |Coordinates(embeddings, n)| ==>
      Coordinates(embeddings, n)[j].0 < n &&
      Coordinates(embeddings, n)[j].1 < |embeddings[Coordinates(embeddings, n)[j].0]|
  {
    if n > 0 {
      CoordinatesInRange(embeddings, n - 1);
    }
  }

  /** The i-th embedding of chunk k comes at position Offset(k) + i. */
  lemma {:induction false} CoordinatesAt(embeddings: seq<seq<EmbeddingObj>>, n: nat, k: nat, i: nat)
    requires n <= |embeddings| && k < n && i < |embeddings[k]|
    ensures 0 <= Offset(embeddings, k) && Offset(embeddings, k) + i < |Coordinates(embeddings, n)| &&
            Coordinates(embeddings, n)[Offset(embeddings, k) + i] == (k, i)
  {
    var prev := Coordinates(embeddings, n - 1);
    var row := seq(|embeddings[n - 1]|, j requires 0 <= j < |embeddings[n - 1]| => ((n - 1) as nat, j as nat));
    assert Coordinates(embeddings, n) == prev + row;
    CoordinatesLength(embeddings, n - 1);
    OffsetNonNegative(embeddings, k);
    if k < n - 1 {
      CoordinatesAt(embeddings, n - 1, k, i);
    } else {
      assert (prev + row)[|prev| + i] == row[i];
    }
  }

  lemma CoordinatesLayout(embeddings: seq<seq<EmbeddingObj>>, n: nat)
    requires n <= |embeddings|
    ensures |Coordinates(embeddings, n)| == Offset(embeddings, n)
    ensures forall j :: 0 <= j < |Coordinates(embeddings, n)| ==>
      Coordinates(embeddings, n)[j].0 < n &&
      Coordinates(embeddings, n)[j].1 < |embeddings[Coordinates(embeddings, n)[j].0]|
  {
    CoordinatesLength(embeddings, n);
    CoordinatesInRange(embeddings, n);
  }

  lemma {:induction false} OffsetNonNegative(embeddings: seq<seq<EmbeddingObj>>, n: int)
    requires 0 <= n <= |embeddings|
    ensures Offset(embeddings, n) >= 0
  {
    if n > 0 {
      OffsetNonNegative(embeddings, n - 1);
    }
  }

  /** Chunks without embeddings contribute no records. */
  lemma {:induction false} OffsetNoEmbeddings(embeddings: seq<seq<EmbeddingObj>>, n: int)
    requires 0 <= n <= |embeddings|
    requires forall k :: 0 <= k < n ==> embeddings[k] == []
    ensures Offset(embeddings, n) == 0
  {
    if n > 0 {
      OffsetNoEmbeddings(embeddings, n - 1);
    }
  }

  /** The pairs come in chunk-then-position order, each exactly once. */
  lemma {:induction false} CoordinatesOrdered(embeddings: seq<seq<EmbeddingObj>>, n: nat)
    requires n <= |embeddings|
    ensures forall j1, j2 :: 0 <= j1 < j2 < |Coordinates(embeddings, n)| ==>
      var c1, c2 := Coordinates(embeddings, n)[j1], Coordinates(embeddings, n)[j2];
      c1.0 < c2.0 || (c1.0 == c2.0 && c1.1 < c2.1)
  {
    if n > 0 {
      CoordinatesOrdered(embeddings, n - 1);
      CoordinatesLayout(embeddings, n - 1);
    }
  }

  /** An embedding that is not an array of finite numbers aborts the whole video;
      otherwise there is one record per embedding. */
  lemma BuildRecordsOutcome(video: Video, chunks: seq<Transcript>, embeddings: seq<seq<EmbeddingObj>>)
    requires |embeddings| == |chunks|
    ensures BuildRecords(video, chunks, embeddings).Err? <==>
      exists k, i :: 0 <= k < |embeddings| && 0 <= i < |embeddings[k]| && !ValidEmbedding(embeddings[k][i])
    ensures BuildRecords(video, chunks, embeddings).Err? ==>
      BuildRecords(video, chunks, embeddings).error == InvalidEmbeddingFormat(video.id)
    ensures BuildRecords(video, chunks, embeddings).Ok? ==>
      |BuildRecords(video, chunks, embeddings).value| == Offset(embeddings, |embeddings|)
  {
    CoordinatesLength(embeddings, |embeddings|);
  }

  /** The i-th embedding of chunk k becomes the record at position Offset(k) + i, with id
      `${video.id}-${k}-${i}`, the embedding's values and chunk k's metadata: records come
      in chunk-then-position order. */
  lemma BuildRecordsAt(video: Video, chunks: seq<Transcript>, embeddings: seq<seq<EmbeddingObj>>, k: nat, i: nat)
    requires |embeddings| == |chunks| && BuildRecords(video, chunks, embeddings).Ok?
    requires k < |embeddings| && i < |embeddings[k]|
    ensures 0 <= Offset(embeddings, k) + i < |BuildRecords(video, chunks, embeddings).value|
    ensures var r := BuildRecords(video, chunks, embeddings).value[Offset(embeddings, k) + i];
      && r.id == RecordId(video.id, k, i)
      && Some(r.values) == embeddings[k][i].values
      && r.metadata == Metadata(video.id, video.title, k, JoinTexts(chunks[k].parts))
  {
    CoordinatesAt(embeddings, |embeddings|, k, i);
  }

  /** No two records of a video share an id. */
  lemma BuildRecordsIdsDistinct(video: Video, chunks: seq<Transcript>, embeddings: seq<seq<EmbeddingObj>>)
    requires |embeddings| == |chunks| && BuildRecords(video, chunks, embeddings).Ok?
    ensures var rs := BuildRecords(video, chunks, embeddings).value;
      forall j1, j2 :: 0 <= j1 < j2 < |rs| ==> rs[j1].id != rs[j2].id
  {
    var rs := BuildRecords(video, chunks, embeddings).value;
    var coords := Coordinates(embeddings, |embeddings|);
    CoordinatesOrdered(embeddings, |embeddings|);
    forall j1, j2 | 0 <= j1 < j2 < |rs|
      ensures rs[j1].id != rs[j2].id
    {
      if rs[j1].id == rs[j2].id {
        RecordIdInjective(video.id, coords[j1].0, coords[j1].1, video.id, coords[j2].0, coords[j2].1);
      }
    }
  }

  /** Every record of a video carries the video's id and title, and the index of an existing chunk. */
  lemma BuildRecordsMetadata(video: Video, chunks: seq<Transcript>, embeddings: seq<seq<EmbeddingObj>>)
    requires |embeddings| == |chunks| && BuildRecords(video, chunks, embeddings).Ok?
    ensures var rs := BuildRecords(video, chunks, embeddings).value;
      forall j :: 0 <= j < |rs| ==>
        rs[j].metadata.videoId == video.id && rs[j].metadata.title == video.title &&
        rs[j].metadata.partIndex < |chunks| &&
        rs[j].metadata.transcriptPart == JoinTexts(chunks[rs[j].metadata.partIndex].parts)
  {
    CoordinatesInRange(embeddings, |embeddings|);
  }
}
