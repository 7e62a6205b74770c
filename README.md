# Transcript ingestion: a verified model

This project models, in Dafny, the core of a playlist transcript ingestion job.

- Each video's transcript is split into chunks of bounded text length (`splitTranscript`).
- Each chunk is embedded, and the embeddings are flattened into vector records with ids `${videoId}-${partIndex}-${i}`.
- The records are grouped into upsert batches under a 2 MiB payload estimate (`estimateVectorSize`, `createPayloadChunks`) and handed to the vector index one batch at a time.
- After each video whose records are built (its embedding calls succeed and every embedding is well formed), its id is appended to the processed-id list and the whole list is passed to `saveCheckpoint`, which writes the playlist's checkpoint file (`upsertVideoTranscriptsForPlaylist`).

Two command-line helpers are modelled as well:

- the fetch with retry and exponential backoff of `src/bin/generate-thumbnails.ts`;
- the slicing of a playlist file into chunk files of `src/bin/split_json.py`.

Files:

- `greedy.dfy`: the greedy grouping that `splitTranscript` and `createPayloadChunks` share. It is written as a left fold (`Greedy.Scan`, `Greedy.Partition`) over a weight function, and its properties are proved once here.
- `chunker.dfy`, `payload.dfy`: the two source loops. Each is an imperative method whose loop invariant ties its variables to the fold, so each is proved equal to `Greedy.Partition`.
- `records.dfy`: decimal rendering, record ids, and the flattening of embeddings into records.
- `orchestrator.dfy`: video selection, the per-video pipeline as a state transition (`VideoStep`), and the run as a fold over the selected videos (`RunVideos`). A class `Ingestion` holds the processed-id list and the upserts and `saveCheckpoint` calls made so far; its methods are proved equal to those functions.
- `retry.dfy`, `split_json.dfy`: the two helpers.
- `types.dfy`, `seqs.dfy`, `wrappers.dfy`: shared data types, `Flatten`, `Option`/`Result`.

The network and the file system become parameters:

- the embedding provider is a function from (chunk, title) to `Option` (None means the call throws);
- the outcome of the n-th checkpoint write is a function `nat -> bool`. The log records the argument of every `saveCheckpoint` call, including calls whose write fails;
- the outcome of the n-th `index.fetch` call is a function `nat -> FetchOutcome`;
- `JSON.stringify(...).length` of a record's metadata is a function `Metadata -> nat`.

Upserts are recorded in the log as they are attempted. Their outcome has no effect on what the code does next.

## Behaviour kept from the code

The model follows the code where the code departs from the documented design. Each of these is proved, not just stated:

- `splitTranscript` and `createPayloadChunks` close the current group whenever the next element would exceed the limit, even if the group is empty. So when the first part (record) alone is over the limit, the result starts with an empty chunk (batch) (`Greedy.PartitionEmptyGroups`). Parts with empty text are kept, not skipped.
- A video is appended to the processed list, and `saveCheckpoint` is called with the whole list, once its records are built, whether or not its batch upserts succeed (`Orchestrator.RunCheckpoints`). A video whose chunks yield no embeddings at all is appended and passed to `saveCheckpoint` too (`Orchestrator.NoEmbeddingsReaches`).
- A video is returned as done exactly when its checkpoint write also succeeds. Its id stays in the list either way (`Orchestrator.RunDone`).
- `fetchVectorsWithRetry` retries every failure: a thrown error and an incomplete response (null, or no `vectors`) alike. There is no non-retryable class of errors.

## Model

| member | source | states |
|---|---|---|
| Greedy.PartitionFlatten | src/server/pinecone.ts:39-57 | the groups, concatenated in order, are exactly the input: nothing is dropped, duplicated or reordered |
| Greedy.PartitionFits | src/server/pinecone.ts:40-51 | every group has total weight within the limit, or has at most one element |
| Greedy.PartitionEmpty | src/server/pinecone.ts:39-59 | there are no groups exactly when the input is empty |
| Greedy.PartitionEmptyGroups | src/server/pinecone.ts:40-57 | only the first group can be empty; it is empty exactly when the first element alone exceeds the limit; the last group is never empty |
| Greedy.PartitionMaximal | src/server/pinecone.ts:40-48 | a group is closed only because the first element of the next group would have pushed it over the limit |
| Chunker.Split | src/server/pinecone.ts:42-56 | every chunk carries the transcript's video id, and the chunks' part lists are the greedy groups of the parts |
| Chunker.SplitTranscript | src/server/pinecone.ts:31-60 | the loop returns exactly `Split(transcript, chunkSize)` |
| Chunker.SplitDetermined | src/server/pinecone.ts:42-56 | chunks with the greedy part lists and the transcript's video id are `Split(transcript, chunkSize)` |
| Chunker.SplitProperties | src/server/pinecone.ts:31-60 | the chunks of a transcript cover its parts in order; each chunk fits the chunk size or is one oversized part; no chunks iff no parts; only the first chunk can be empty, and only when the first part's text is longer than the chunk size; every chunk boundary is forced by the size |
| Payload.BatchSize | src/server/pinecone.ts:24-28 | a batch's estimated size is 8 bytes per value, plus its metadata JSON lengths, plus its id lengths |
| Payload.CreatePayloadChunks | src/server/pinecone.ts:63-86 | the loop returns exactly the greedy partition of the records under `estimateVectorSize` and the limit |
| Payload.PayloadChunksProperties | src/server/pinecone.ts:63-86 | the batches cover the records in order; each fits the payload limit or is one oversized record; no batches iff no records; only the first can be empty, and only when the first record alone exceeds the limit; every batch boundary is forced by the limit |
| Records.NatToString | src/server/pinecone.ts:167 | the decimal numeral of an index is a non-empty run of digits with no leading zero (its first digit is `0` only for 0 itself) |
| Records.NatToStringValue | src/server/pinecone.ts:167 | the numeral of n, read back as decimal digits most significant first, is n |
| Records.NatToStringInjective | src/server/pinecone.ts:167 | distinct indices render as distinct numerals |
| Records.RecordIdInjective | src/server/pinecone.ts:167 | an id `${videoId}-${partIndex}-${i}` determines its video id, chunk index and position |
| Records.CoordinatesOrdered | src/server/pinecone.ts:151-152 | the (chunk, position) pairs `flatMap` visits are strictly increasing in lexicographic order |
| Records.BuildRecordsOutcome | src/server/pinecone.ts:151-164 | record building fails iff some embedding has no values array or a non-finite value; the error names the video; otherwise there is one record per embedding |
| Records.JoinTextsAppend | src/server/pinecone.ts:173-175 | joining two non-empty part lists is joining each, with one space between them |
| Records.JoinTextsLength | src/server/pinecone.ts:173-175 | the joined text is as long as all the parts' texts plus one space between each pair of neighbours |
| Records.OffsetNoEmbeddings | src/server/pinecone.ts:151-152 | chunks that embed to no vectors contribute no records |
| Records.BuildRecordsAt | src/server/pinecone.ts:151-178 | the i-th embedding of chunk k becomes the record at position Offset(k) + i, with id `${video.id}-${k}-${i}`, that embedding's values, and chunk k's metadata |
| Records.BuildRecordsIdsDistinct | src/server/pinecone.ts:166-167 | no two records of a video share an id |
| Records.BuildRecordsMetadata | src/server/pinecone.ts:169-176 | every record carries the video's id and title, the index of an existing chunk, and that chunk's texts joined by spaces |
| Orchestrator.SelectVideosAppend | src/server/pinecone.ts:104-127 | selection keeps playlist order: selecting from a + b is selecting from a, then from b |
| Orchestrator.SelectVideosSingle | src/server/pinecone.ts:105-126 | one item yields its video exactly when it has an id, is not yet processed, has a title, and has a transcript |
| Orchestrator.SelectVideosMembers | src/server/pinecone.ts:104-127 | a video is selected iff some playlist item passes the four tests and carries that video's id, transcript and title |
| Orchestrator.Without | src/server/pinecone.ts:110 | keeps exactly the videos whose id is not in the given list |
| Orchestrator.SelectVideosMoreProcessed | src/server/pinecone.ts:109-113 | selecting with more ids marked processed drops exactly the videos with those ids, in order |
| Orchestrator.NoEmbeddingsReaches | src/server/pinecone.ts:140-202 | a video whose every chunk embeds to an empty list gets past record building with no records; its id is appended, nothing is upserted, and `saveCheckpoint` is called with the whole list |
| Orchestrator.EmbedAll | src/server/pinecone.ts:140-148 | all chunks' embeddings in chunk order, or failure exactly when some chunk's call fails |
| Orchestrator.RunVideosStep | src/server/pinecone.ts:129-218 | processing one more video extends the run by one `VideoStep` |
| Orchestrator.VideoStepCheckpoint | src/server/pinecone.ts:200-202 | one video appends its id and writes one checkpoint of the whole list if its records were built, and changes neither otherwise |
| Orchestrator.VideoStepDone | src/server/pinecone.ts:202-212 | one video is returned as done iff its records were built and its checkpoint write succeeded |
| Orchestrator.SnapshotsAt | src/server/pinecone.ts:201-202 | the k-th `saveCheckpoint` call of a run is passed the starting list plus the first k + 1 appended ids |
| Orchestrator.ReachingIdsStep | src/server/pinecone.ts:201 | the appended ids grow by a video's id exactly when that video's records are built |
| Orchestrator.RunProcessed | src/server/pinecone.ts:201 | after a run, the processed list is the starting list plus the ids of the videos whose records were built, in order |
| Orchestrator.RunCheckpoints | src/server/pinecone.ts:188-202 | as RunProcessed, and the `saveCheckpoint` calls are the earlier ones plus one per such video, each passed the whole accumulated list up to that video, whatever the upserts did |
| Orchestrator.RunLastCheckpoint | src/server/pinecone.ts:201-202 | when any video gets that far, the last `saveCheckpoint` call is passed the final processed list; the file holds that list only if this write succeeded |
| Orchestrator.RunSavesCount | src/server/pinecone.ts:202 | one `saveCheckpoint` call per video whose records were built |
| Orchestrator.RunDone | src/server/pinecone.ts:202-218 | the returned videos are those whose records were built and whose checkpoint write succeeded, in order |
| Orchestrator.RunUpserts | src/server/pinecone.ts:186-198 | the batches handed to `index.upsert`, concatenated, are the records of the videos whose records were built, in order |
| Orchestrator.RerunSelectsUnfinished | src/server/pinecone.ts:104-202 | calling again on the same playlist with the in-memory `processedVideoIds` array the run left behind (which equals the saved file only when the last write succeeded) selects exactly the first run's videos that did not get their records built |
| Orchestrator.Ingestion.constructor | src/server/pinecone.ts:93 | a run starts from the given processed list, with no writes yet |
| Orchestrator.Ingestion.PrepareVideo | src/server/pinecone.ts:137-179 | chunking, embedding and record building return `VideoRecords(video, svc)` |
| Orchestrator.Ingestion.UpsertBatches | src/server/pinecone.ts:188-198 | every batch is handed to `index.upsert` in order; nothing else changes |
| Orchestrator.Ingestion.ProcessVideo | src/server/pinecone.ts:132-212 | the new state and the done flag are `VideoStep` of the old state |
| Orchestrator.Ingestion.UpsertVideoTranscriptsForPlaylist | src/server/pinecone.ts:88-219 | the new state and the returned videos are `RunVideos` over the selected videos; the processed list grows by exactly the ids of the videos whose records were built |
| FetchRetry.BackoffClosedForm | src/bin/generate-thumbnails.ts:8-38 | the k-th wait is retryDelay * 2^k |
| FetchRetry.FetchVectorsWithDefaults | src/bin/generate-thumbnails.ts:1-41 | with the defaults maxRetries = 3 and retryDelay = 1000: 1 to 3 calls, waits of 1000 and then 2000 ms, a response iff one of the first three calls succeeds, and otherwise the third call's error |
| FetchRetry.FetchVectorsWithRetry | src/bin/generate-thumbnails.ts:1-41 | returns undefined without calling when maxRetries <= 0; otherwise makes 1 to maxRetries calls, waits retryDelay * 2^k after the k-th failure, returns the first complete response, or rethrows the last error after maxRetries failures; it returns a response iff one of the first maxRetries calls succeeds |
| SplitJson.RestrictTranscripts | src/bin/split_json.py:31-35 | a chunk's transcripts are exactly those of its items' videos that have one, unchanged |
| SplitJson.CeilDivZero | src/bin/split_json.py:21 | items per chunk is zero exactly when the playlist is empty |
| SplitJson.CeilDiv | src/bin/split_json.py:21 | `items_per_chunk` is the ceiling of total / chunk_count: the least r with total <= r * chunk_count |
| SplitJson.FileCountBound | src/bin/split_json.py:19-24 | slicing n items by ceil(n / c) gives at most c files |
| SplitJson.SliceSize | src/bin/split_json.py:24-25 | every slice holds items_per_chunk items, except the last, which holds at least one |
| SplitJson.MakeChunkFile | src/bin/split_json.py:25-39 | the file written at offset i = k * items_per_chunk is chunk file k |
| SplitJson.SliceFiles | src/bin/split_json.py:24-43 | the loop writes chunk files 0, 1, ... in order, just enough to hold every item, and their slices concatenated are the item list |
| SplitJson.SplitJsonFile | src/bin/split_json.py:5-43 | a zero chunk count raises division by zero; an empty playlist raises the zero-step error; otherwise between 1 and chunk_count files, sliced as SliceFiles states |
| SplitJson.ChunkFileContents | src/bin/split_json.py:24-39 | chunk file k is named by k, copies the playlist id, holds items_per_chunk items (the last at least one), and holds exactly the transcripts of its videos |

## Left out

- Network calls (embedding provider, `index.upsert`, `index.fetch`) and the checkpoint file write are not modelled. Their outcomes are parameters of the model.
- An upsert's success or failure is not modelled, because the code only logs it and goes on.
- `pMap` concurrency is not modelled. Videos are processed one at a time, in playlist order, as with the default concurrency of 1. Interleavings under a higher concurrency are not modelled.
- `getEmbeddingsForVideoTranscript` (src/server/openai.ts) is not part of this model. It is summarised by the `embed` parameter.
- `src/server/types.ts` is not part of this model beyond the fields the core reads (`types.dfy`).
- `JSON.stringify` is not modelled. Only the length of the metadata's JSON text enters the size estimate, as the `jsonLength` parameter.
- `Number.isFinite` over IEEE doubles becomes a two-case `Number` type (finite real / non-finite). Floating point is not modelled.
- String length is taken as the number of characters of a `seq<char>`. JavaScript counts UTF-16 code units, which differ for characters outside the Basic Multilingual Plane.
- Sleeping is not modelled. `FetchVectorsWithRetry` records the delays it would wait.
- FetchRetry.FetchVectorsWithRetry: takes `maxRetries` as an integer, so it does not model a fractional value. With such a value the JavaScript loop runs past the last attempt and returns `undefined`.
- Logging (`console.log`, `console.warn`, `console.error`, `print`) is left out, because it has no effect on results.
- `split_json_file` reading the input file, creating the output directory and writing the chunk files are left out: the model returns the files' contents.
- The chunk count is not derived from the input file's size. It is a parameter.
- Python's float division inside `math.ceil` is modelled as exact integer ceiling division, which agrees with the float result while the counts stay below 2^53.
- A playlist item without `contentDetails.videoId` (a `KeyError` in `split_json_file`) is not modelled. Items always carry a video id, possibly empty.
- No code among the modelled files reads a checkpoint back. The only caller shown, src/bin/process-yt-playlist.ts:26-29, passes no `processedVideoIds`, so every run starts from an empty list. The resumption lemma is about a caller that passes the in-memory array back in.
- The command-line drivers around these functions are outside the modelled core.
