// The rules of `upsertVideoTranscriptsForPlaylist` in src/server/pinecone.ts that do
// not depend on the network: which playlist items are processed, what each video's
// pipeline writes, and how the list of processed ids grows and is checkpointed.
// Videos are processed one at a time, in playlist order (the caller's concurrency of 1).
module Orchestrator {
  import opened Wrappers
  import opened Types
  import opened Seqs
  import Greedy
  import Chunker
  import Payload
  import opened Records

  // ---------------------------------------------------------------------------
  // Selecting the videos to process.

  /** JavaScript truthiness of a string. */
  predicate Truthy(s: string)
  {
    s != ""
  }

  /** The four tests a playlist item must pass: an id, not yet processed, a title, a transcript. */
  predicate Kept(item: PlaylistItem, transcripts: map<string, Transcript>, processed: seq<string>)
  {
    Truthy(item.videoId) && item.videoId !in processed && Truthy(item.title) && item.videoId in transcripts
  }

  /** The body of the `map` callback: the video for an item, or nothing. */
  function KeepItem(item: PlaylistItem, transcripts: map<string, Transcript>, processed: seq<string>): Option<Video>
  {
    if !Truthy(item.videoId) then None
    else if item.videoId in processed then None
    else if !Truthy(item.title) then None
    else if item.videoId !in transcripts then None
    else Some(Video(item.videoId, transcripts[item.videoId], item.title))
  }

  /** `playlistItems.map(...).filter(Boolean)`. */
  function SelectVideos(items: seq<PlaylistItem>, transcripts: map<string, Transcript>, processed: seq<string>): seq<Video>
  {
    if items == [] then []
    else
      SelectVideos(items[..|items| - 1], transcripts, processed)
      + match KeepItem(items[|items| - 1], transcripts, processed)
        case Some(v) => [v]
        case None => []
  }

  /** Selection keeps playlist order: selecting from two lists in turn is selecting from their concatenation. */
  lemma {:induction false} SelectVideosAppend(a: seq<PlaylistItem>, b: seq<PlaylistItem>,
                                              transcripts: map<string, Transcript>, processed: seq<string>)
    ensures SelectVideos(a + b, transcripts, processed)
      == SelectVideos(a, transcripts, processed) + SelectVideos(b, transcripts, processed)
    decreases |b|
  {
    if b == [] {
      assert a + b == a;
    } else {
      assert (a + b)[..|a + b| - 1] == a + b[..|b| - 1];
      assert (a + b)[|a + b| - 1] == b[|b| - 1];
      SelectVideosAppend(a, b[..|b| - 1], transcripts, processed);
    }
  }

  /** One item yields its video exactly when it passes the four tests. */
  lemma SelectVideosSingle(item: PlaylistItem, transcripts: map<string, Transcript>, processed: seq<string>)
    ensures SelectVideos([item], transcripts, processed)
      == if Kept(item, transcripts, processed)
         then [Video(item.videoId, transcripts[item.videoId], item.title)]
         else []
  {
    assert [item][..0] == [];
  }

  /** The selected videos are exactly the items that pass the four tests. */
  lemma {:induction false} SelectVideosMembers(items: seq<PlaylistItem>, transcripts: map<string, Transcript>, processed: seq<string>)
    ensures forall v :: v in SelectVideos(items, transcripts, processed) <==>
      exists j :: 0 <= j < |items| && Kept(items[j], transcripts, processed) &&
        v == Video(items[j].videoId, transcripts[items[j].videoId], items[j].title)
    decreases |items|
  {
    if items != [] {
      var init := items[..|items| - 1];
      var last := items[|items| - 1];
      SelectVideosMembers(init, transcripts, processed);
      assert items == init + [last];
      SelectVideosAppend(init, [last], transcripts, processed);
      SelectVideosSingle(last, transcripts, processed);
      forall v | v in SelectVideos(items, transcripts, processed)
        ensures exists j :: (0 <= j < |items| && Kept(items[j], transcripts, processed) &&
                             v == Video(items[j].videoId, transcripts[items[j].videoId], items[j].title))
      {
        if v in SelectVideos(init, transcripts, processed) {
          var j :| 0 <= j < |init| && Kept(init[j], transcripts, processed) &&
            v == Video(init[j].videoId, transcripts[init[j].videoId], init[j].title);
          assert items[j] == init[j];
        } else {
          assert items[|items| - 1] == last;
        }
      }
      forall v, j | 0 <= j < |items| && Kept(items[j], transcripts, processed) &&
          v == Video(items[j].videoId, transcripts[items[j].videoId], items[j].title)
        ensures v in SelectVideos(items, transcripts, processed)
      {
        if j < |init| {
          assert items[j] == init[j];
        }
      }
    }
  }

  /** The videos of `vs` whose id is not in `ids`, in order. */
  function Without(vs: seq<Video>, ids: seq<string>): (r: seq<Video>)
    ensures forall v :: v in r <==> v in vs && v.id !in ids
  {
    if vs == [] then []
    else Without(vs[..|vs| - 1], ids) + (if vs[|vs| - 1].id in ids then [] else [vs[|vs| - 1]])
  }

  /** Re-selecting with more ids marked processed drops exactly the videos with those ids. */
  lemma {:induction false} SelectVideosMoreProcessed(items: seq<PlaylistItem>, transcripts: map<string, Transcript>,
                                                     processed: seq<string>, more: seq<string>)
    ensures SelectVideos(items, transcripts, processed + more)
      == Without(SelectVideos(items, transcripts, processed), more)
    decreases |items|
  {
    if items != [] {
      var init := items[..|items| - 1];
      var last := items[|items| - 1];
      SelectVideosMoreProcessed(init, transcripts, processed, more);
      var s := SelectVideos(items, transcripts, processed);
      var s0 := SelectVideos(init, transcripts, processed);
      match KeepItem(last, transcripts, processed)
      case None =>
        assert s == s0 + [];
        assert s == s0;
      case Some(v) =>
        assert s == s0 + [v];
        assert s[..|s| - 1] == s0;
    }
  }

  // ---------------------------------------------------------------------------
  // One video's pipeline.

  /** The services the pipeline calls, given as their outcomes: the embedding provider
      (chunk and title to embeddings; None when the call throws), the outcome of the n-th
      checkpoint write, and the length of the JSON text of a record's metadata. */
  datatype Services = Services(
    embed: (Transcript, string) -> Option<seq<EmbeddingObj>>,
    saveOk: nat -> bool,
    jsonLength: Metadata -> nat)

  /** The argument of one `saveCheckpoint` call. */
  datatype Checkpoint = Checkpoint(playlistId: string, ids: seq<string>)

  /** What the run has done so far: the processed-id list, every batch handed to
      `index.upsert` (failed or not), and the argument of every `saveCheckpoint` call,
      whether or not that write succeeded. */
  datatype Log = Log(processed: seq<string>, upserts: seq<seq<Record>>, saves: seq<Checkpoint>)

  /** `Promise.all` over the chunks' embedding calls: every chunk's embeddings in chunk
      order, or None when any call fails. */
  function EmbedAll(chunks: seq<Transcript>, title: string, embed: (Transcript, string) -> Option<seq<EmbeddingObj>>)
    : (r: Option<seq<seq<EmbeddingObj>>>)
    ensures r.Some? <==> forall k :: 0 <= k < |chunks| ==> embed(chunks[k], title).Some?
    ensures r.Some? ==> |r.value| == |chunks|
    ensures r.Some? ==> forall k :: 0 <= k < |chunks| ==> Some(r.value[k]) == embed(chunks[k], title)
  {
    if chunks == [] then Some([])
    else
      match EmbedAll(chunks[..|chunks| - 1], title, embed)
      case None => None
      case Some(prefix) =>
        match embed(chunks[|chunks| - 1], title)
        case None => None
        case Some(e) => Some(prefix + [e])
  }

  /** The chunks of a video. */
  function VideoChunks(video: Video): seq<Transcript>
  {
    Chunker.Split(video.transcript, Chunker.ChunkSize)
  }

  /** The records of a video, or None when embedding or validation aborts it. */
  function VideoRecords(video: Video, svc: Services): Option<seq<Record>>
  {
    var chunks := VideoChunks(video);
    match EmbedAll(chunks, video.title, svc.embed)
    case None => None
    case Some(embeddings) =>
      match BuildRecords(video, chunks, embeddings)
      case Err(_) => None
      case Ok(records) => Some(records)
  }

  /** A video whose chunks all embed to no vectors at all still gets past record building,
      with no records: it is appended and checkpointed like any other. */
  lemma NoEmbeddingsReaches(log: Log, playlistId: string, video: Video, svc: Services)
    requires forall k :: 0 <= k < |VideoChunks(video)| ==> svc.embed(VideoChunks(video)[k], video.title) == Some([])
    ensures VideoRecords(video, svc) == Some([]) && Reaches(video, svc)
    ensures var log' := VideoStep(log, playlistId, video, svc).0;
      && log'.processed == log.processed + [video.id]
      && log'.upserts == log.upserts
      && log'.saves == log.saves + [Checkpoint(playlistId, log.processed + [video.id])]
  {
    var chunks := VideoChunks(video);
    var e := EmbedAll(chunks, video.title, svc.embed);
    assert forall k :: 0 <= k < |chunks| ==> e.value[k] == [];
    OffsetNoEmbeddings(e.value, |e.value|);
    BuildRecordsOutcome(video, chunks, e.value);
    Greedy.PartitionEmpty([], Payload.SizeOf(svc.jsonLength), Payload.MaxPayloadSize);
  }

  /** A video whose pipeline gets past embedding and record building: its id is appended
      to the processed list, whatever its upserts and its checkpoint write do. */
  predicate Reaches(video: Video, svc: Services)
  {
    VideoRecords(video, svc).Some?
  }

  /** The batches a video's records are upserted in. */
  function VideoBatches(records: seq<Record>, svc: Services): seq<seq<Record>>
  {
    Greedy.Partition(records, Payload.SizeOf(svc.jsonLength), Payload.MaxPayloadSize)
  }

  /** The effect of processing one video, and whether the video is returned as done. */
  function VideoStep(log: Log, playlistId: string, video: Video, svc: Services): (Log, bool)
  {
    match VideoRecords(video, svc)
    case None => (log, false)
    case Some(records) =>
      var ids := log.processed + [video.id];
      (Log(ids, log.upserts + VideoBatches(records, svc), log.saves + [Checkpoint(playlistId, ids)]),
       svc.saveOk(|log.saves|))
  }

  /** The effect of processing the videos in order, and the videos returned as done. */
  function RunVideos(log: Log, playlistId: string, videos: seq<Video>, svc: Services): (Log, seq<Video>)
  {
    if videos == [] then (log, [])
    else
      var prev := RunVideos(log, playlistId, videos[..|videos| - 1], svc);
      var step := VideoStep(prev.0, playlistId, videos[|videos| - 1], svc);
      (step.0, prev.1 + if step.1 then [videos[|videos| - 1]] else [])
  }

  /** Processing one more video extends the run by one step. */
  lemma RunVideosStep(log: Log, playlistId: string, videos: seq<Video>, i: nat, svc: Services)
    requires i < |videos|
    ensures var prev := RunVideos(log, playlistId, videos[..i], svc);
      var step := VideoStep(prev.0, playlistId, videos[i], svc);
      RunVideos(log, playlistId, videos[..i + 1], svc) == (step.0, prev.1 + if step.1 then [videos[i]] else [])
  {
    assert videos[..i + 1][..i] == videos[..i];
  }

  /** The videos that reach the append, in order. */
  function Reaching(videos: seq<Video>, svc: Services): seq<Video>
  {
    if videos == [] then []
    else Reaching(videos[..|videos| - 1], svc) + if Reaches(videos[|videos| - 1], svc) then [videos[|videos| - 1]] else []
  }

  function Ids(videos: seq<Video>): (r: seq<string>)
    ensures |r| == |videos| && forall k :: 0 <= k < |videos| ==> r[k] == videos[k].id
  {
    seq(|videos|, k requires 0 <= k < |videos| => videos[k].id)
  }

  /** The records of the given videos, one video after another. */
  function AllRecords(videos: seq<Video>, svc: Services): seq<Record>
  {
    if videos == [] then []
    else
      AllRecords(videos[..|videos| - 1], svc)
      + match VideoRecords(videos[|videos| - 1], svc)
        case Some(records) => records
        case None => []
  }

  /** The `saveCheckpoint` arguments as the ids `added` are appended one by one to `base`. */
  function Snapshots(playlistId: string, base: seq<string>, added: seq<string>): (r: seq<Checkpoint>)
    ensures |r| == |added|
  {
    if added == [] then []
    else Snapshots(playlistId, base, added[..|added| - 1]) + [Checkpoint(playlistId, base + added)]
  }

  /** The k-th of those checkpoints holds `base` and the first k + 1 added ids. */
  lemma {:induction false} SnapshotsAt(playlistId: string, base: seq<string>, added: seq<string>, k: nat)
    requires k < |added|
    ensures |Snapshots(playlistId, base, added)| == |added|
    ensures Snapshots(playlistId, base, added)[k] == Checkpoint(playlistId, base + added[..k + 1])
    decreases |added|
  {
    var init := added[..|added| - 1];
    if k < |init| {
      SnapshotsAt(playlistId, base, init, k);
      assert init[..k + 1] == added[..k + 1];
    } else {
      assert added[..k + 1] == added;
      if init != [] {
        SnapshotsAt(playlistId, base, init, 0);
      }
    }
  }

  /** The videos of `reached` whose checkpoint write succeeded, when the first of them made
      write number `base`. */
  function Confirmed(reached: seq<Video>, base: nat, saveOk: nat -> bool): seq<Video>
  {
    if reached == [] then []
    else
      Confirmed(reached[..|reached| - 1], base, saveOk)
      + if saveOk(base + |reached| - 1) then [reached[|reached| - 1]] else []
  }

  /** What processing one video does to the processed list and the checkpoints. */
  lemma VideoStepCheckpoint(log: Log, playlistId: string, video: Video, svc: Services)
    ensures var log' := VideoStep(log, playlistId, video, svc).0;
      && log'.processed == (if Reaches(video, svc) then log.processed + [video.id] else log.processed)
      && log'.saves == (if Reaches(video, svc) then log.saves + [Checkpoint(playlistId, log'.processed)] else log.saves)
  {
  }

  /** Whether processing one video returns it: it got past record building and its
      checkpoint write succeeded. */
  lemma VideoStepDone(log: Log, playlistId: string, video: Video, svc: Services)
    ensures VideoStep(log, playlistId, video, svc).1 == (Reaches(video, svc) && svc.saveOk(|log.saves|))
  {
  }

  /** The ids of the videos that reach their checkpoint grow by the last video's id
      exactly when that video reaches it. */
  lemma ReachingIdsStep(videos: seq<Video>, svc: Services)
    requires videos != []
    ensures var v := videos[|videos| - 1];
      Ids(Reaching(videos, svc))
        == Ids(Reaching(videos[..|videos| - 1], svc)) + (if Reaches(v, svc) then [v.id] else [])
  {
    var init := videos[..|videos| - 1];
    var v := videos[|videos| - 1];
    if Reaches(v, svc) {
      assert Reaching(videos, svc) == Reaching(init, svc) + [v];
    } else {
      assert Reaching(videos, svc) == Reaching(init, svc) + [];
    }
  }

  /** The processed list grows by the ids of the videos that reach their checkpoint. */
  lemma {:induction false} RunProcessed(log: Log, playlistId: string, videos: seq<Video>, svc: Services)
    ensures RunVideos(log, playlistId, videos, svc).0.processed == log.processed + Ids(Reaching(videos, svc))
    decreases |videos|
  {
    if videos != [] {
      var init := videos[..|videos| - 1];
      RunProcessed(log, playlistId, init, svc);
      VideoStepCheckpoint(RunVideos(log, playlistId, init, svc).0, playlistId, videos[|videos| - 1], svc);
      ReachingIdsStep(videos, svc);
    }
  }

  /** The processed-id list grows by the ids of the videos that get past record building,
      in order, and each one's append is followed by a `saveCheckpoint` call with the WHOLE
      accumulated list; the calls made before the run are kept. */
  lemma {:induction false} RunCheckpoints(log: Log, playlistId: string, videos: seq<Video>, svc: Services)
    ensures RunVideos(log, playlistId, videos, svc).0.processed == log.processed + Ids(Reaching(videos, svc))
    ensures RunVideos(log, playlistId, videos, svc).0.saves
      == log.saves + Snapshots(playlistId, log.processed, Ids(Reaching(videos, svc)))
    decreases |videos|
  {
    RunProcessed(log, playlistId, videos, svc);
    if videos != [] {
      var init := videos[..|videos| - 1];
      var v := videos[|videos| - 1];
      RunCheckpoints(log, playlistId, init, svc);
      var log1 := RunVideos(log, playlistId, init, svc).0;
      assert RunVideos(log, playlistId, videos, svc).0 == VideoStep(log1, playlistId, v, svc).0;
      VideoStepCheckpoint(log1, playlistId, v, svc);
      ReachingIdsStep(videos, svc);
      var added0 := Ids(Reaching(init, svc));
      var added := Ids(Reaching(videos, svc));
      if Reaches(v, svc) {
        assert added == added0 + [v.id];
        assert added[..|added| - 1] == added0;
        assert log1.processed + [v.id] == log.processed + added;
      } else {
        assert added == added0;
      }
    }
  }

  /** The last `saveCheckpoint` call is passed every id processed so far (the file holds
      that list only if this write succeeded). */
  lemma RunLastCheckpoint(log: Log, playlistId: string, videos: seq<Video>, svc: Services)
    requires Reaching(videos, svc) != []
    ensures var log' := RunVideos(log, playlistId, videos, svc).0;
      log'.saves != [] && log'.saves[|log'.saves| - 1] == Checkpoint(playlistId, log'.processed)
  {
    RunCheckpoints(log, playlistId, videos, svc);
    var added := Ids(Reaching(videos, svc));
    SnapshotsAt(playlistId, log.processed, added, |added| - 1);
    assert added[..|added|] == added;
  }

  /** The videos returned as done are those that got past record building and whose
      checkpoint write succeeded, in order. */
  lemma {:induction false} RunDone(log: Log, playlistId: string, videos: seq<Video>, svc: Services)
    ensures RunVideos(log, playlistId, videos, svc).1 == Confirmed(Reaching(videos, svc), |log.saves|, svc.saveOk)
    decreases |videos|
  {
    if videos != [] {
      var init := videos[..|videos| - 1];
      var v := videos[|videos| - 1];
      RunDone(log, playlistId, init, svc);
      RunSavesCount(log, playlistId, init, svc);
      var log1 := RunVideos(log, playlistId, init, svc).0;
      assert RunVideos(log, playlistId, videos, svc).1
        == RunVideos(log, playlistId, init, svc).1 + if VideoStep(log1, playlistId, v, svc).1 then [v] else [];
      VideoStepDone(log1, playlistId, v, svc);
      var r0 := Reaching(init, svc);
      ReachingStep(videos, svc);
      if Reaches(v, svc) {
        ConfirmedStep(r0, v, |log.saves|, svc.saveOk);
        assert Reaching(videos, svc) == r0 + [v];
      } else {
        assert Reaching(videos, svc) == r0;
      }
    }
  }

  lemma ReachingStep(videos: seq<Video>, svc: Services)
    requires videos != []
    ensures var v := videos[|videos| - 1];
      Reaching(videos, svc) == Reaching(videos[..|videos| - 1], svc) + if Reaches(v, svc) then [v] else []
  {
  }

  /** One checkpoint write per video that reaches it. */
  lemma RunSavesCount(log: Log, playlistId: string, videos: seq<Video>, svc: Services)
    ensures |RunVideos(log, playlistId, videos, svc).0.saves| == |log.saves| + |Reaching(videos, svc)|
  {
    RunCheckpoints(log, playlistId, videos, svc);
  }

  lemma ConfirmedStep(reached: seq<Video>, v: Video, base: nat, saveOk: nat -> bool)
    ensures Confirmed(reached + [v], base, saveOk)
      == Confirmed(reached, base, saveOk) + if saveOk(base + |reached|) then [v] else []
  {
    assert (reached + [v])[..|reached|] == reached;
  }

  /** Every batch of every video that gets past record building is handed to
      `index.upsert`, in order, whether or not earlier upserts failed; together the
      batches carry exactly those videos' records. */
  lemma {:induction false} RunUpserts(log: Log, playlistId: string, videos: seq<Video>, svc: Services)
    ensures Flatten(RunVideos(log, playlistId, videos, svc).0.upserts)
      == Flatten(log.upserts) + AllRecords(Reaching(videos, svc), svc)
    decreases |videos|
  {
    if videos != [] {
      var init := videos[..|videos| - 1];
      var v := videos[|videos| - 1];
      RunUpserts(log, playlistId, init, svc);
      var log1 := RunVideos(log, playlistId, init, svc).0;
      var r0 := Reaching(init, svc);
      if Reaches(v, svc) {
        var records := VideoRecords(v, svc).value;
        var batches := VideoBatches(records, svc);
        Greedy.PartitionFlatten(records, Payload.SizeOf(svc.jsonLength), Payload.MaxPayloadSize);
        FlattenAppend(log1.upserts, batches);
        var r := r0 + [v];
        assert Reaching(videos, svc) == r;
        assert r[..|r| - 1] == r0;
      } else {
        assert Reaching(videos, svc) == r0 + [];
        assert r0 + [] == r0;
      }
    }
  }

  /** Calling again on the same playlist with the in-memory `processedVideoIds` array the
      run left behind selects exactly the videos of the first selection that did not get
      past record building. */
  lemma RerunSelectsUnfinished(playlist: PlaylistDetailsWithTranscripts, log: Log, svc: Services)
    ensures var selected := SelectVideos(playlist.playlistItems, playlist.transcripts, log.processed);
      var log' := RunVideos(log, playlist.playlistId, selected, svc).0;
      SelectVideos(playlist.playlistItems, playlist.transcripts, log'.processed)
        == Without(selected, Ids(Reaching(selected, svc)))
  {
    var selected := SelectVideos(playlist.playlistItems, playlist.transcripts, log.processed);
    RunCheckpoints(log, playlist.playlistId, selected, svc);
    SelectVideosMoreProcessed(playlist.playlistItems, playlist.transcripts, log.processed, Ids(Reaching(selected, svc)));
  }

  // ---------------------------------------------------------------------------
  // The run as a sequence of state changes.

  /** The mutable state of one call of `upsertVideoTranscriptsForPlaylist`: the
      `processedVideoIds` array the call appends to, and the upserts and `saveCheckpoint`
      calls made so far. */
  class Ingestion {
    var processedVideoIds: seq<string>
    var upserts: seq<seq<Record>>
    var saves: seq<Checkpoint>

    function State(): Log
      reads this
    {
      Log(processedVideoIds, upserts, saves)
    }

    /** A run starting from the caller's `processedVideoIds` array (empty by default). */
    constructor (processedVideoIds: seq<string>)
      ensures State() == Log(processedVideoIds, [], [])
    {
      this.processedVideoIds := processedVideoIds;
      upserts := [];
      saves := [];
    }

    /** Chunking, embedding and record building for one video: its records, or None when
        an embedding call fails or an embedding is malformed. */
    static method PrepareVideo(video: Video, svc: Services) returns (vectors: Option<seq<Record>>)
      ensures vectors == VideoRecords(video, svc)
    {
      var transcriptParts := Chunker.SplitTranscript(video.transcript, Chunker.ChunkSize);
      assert transcriptParts == VideoChunks(video);
      var videoEmbeddings := EmbedAll(transcriptParts, video.title, svc.embed);
      if videoEmbeddings.None? {
        return None;
      }
      var built := BuildRecords(video, transcriptParts, videoEmbeddings.value);
      if built.Err? {
        return None;
      }
      return Some(built.value);
    }

    /** The loop over the batches: each is handed to `index.upsert`; a failure is logged
        and the loop goes on. */
    method UpsertBatches(vectorChunks: seq<seq<Record>>)
      modifies this
      ensures upserts == old(upserts) + vectorChunks
      ensures processedVideoIds == old(processedVideoIds) && saves == old(saves)
    {
      for b := 0 to |vectorChunks|
        invariant upserts == old(upserts) + vectorChunks[..b]
        invariant processedVideoIds == old(processedVideoIds) && saves == old(saves)
      {
        upserts := upserts + [vectorChunks[b]];
      }
      assert vectorChunks[..|vectorChunks|] == vectorChunks;
    }

    /** The body of the `pMap` callback for one video; `done` says whether it returns the video. */
    method ProcessVideo(playlistId: string, video: Video, svc: Services) returns (done: bool)
      modifies this
      ensures (State(), done) == VideoStep(old(State()), playlistId, video, svc)
    {
      var vectors := PrepareVideo(video, svc);
      if vectors.None? {
        return false;
      }
      var vectorChunks := Payload.CreatePayloadChunks(vectors.value, Payload.MaxPayloadSize, svc.jsonLength);
      assert vectorChunks == VideoBatches(vectors.value, svc);
      UpsertBatches(vectorChunks);
      processedVideoIds := processedVideoIds + [video.id];
      done := svc.saveOk(|saves|);
      saves := saves + [Checkpoint(playlistId, processedVideoIds)];
    }

    /** `upsertVideoTranscriptsForPlaylist`, videos one at a time in playlist order. */
    method UpsertVideoTranscriptsForPlaylist(playlist: PlaylistDetailsWithTranscripts, svc: Services)
      returns (done: seq<Video>)
      modifies this
      ensures var selected := SelectVideos(playlist.playlistItems, playlist.transcripts, old(processedVideoIds));
        (State(), done) == RunVideos(old(State()), playlist.playlistId, selected, svc)
      ensures var selected := SelectVideos(playlist.playlistItems, playlist.transcripts, old(processedVideoIds));
        processedVideoIds == old(processedVideoIds) + Ids(Reaching(selected, svc))
    {
      var videos := SelectVideos(playlist.playlistItems, playlist.transcripts, processedVideoIds);
      ghost var start := State();
      done := [];
      for i := 0 to |videos|
        invariant State() == RunVideos(start, playlist.playlistId, videos[..i], svc).0
        invariant done == RunVideos(start, playlist.playlistId, videos[..i], svc).1
      {
        RunVideosStep(start, playlist.playlistId, videos, i, svc);
        var ok := ProcessVideo(playlist.playlistId, videos[i], svc);
        if ok {
          done := done + [videos[i]];
        }
      }
      assert videos[..|videos|] == videos;
      RunCheckpoints(start, playlist.playlistId, videos, svc);
    }
  }
}
