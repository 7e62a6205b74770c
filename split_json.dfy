// The slicing in `split_json_file` of src/bin/split_json.py: the playlist items are cut
// into consecutive slices of `items_per_chunk` items, and each chunk file gets the
// playlist id, its slice, and the transcripts of the slice's videos. Reading the input,
// deriving the number of chunks from the file size, and writing the files are not
// modelled: `chunkCount` is given.
module SplitJson {
  import opened Wrappers
  import opened Types
  import opened Seqs

  /** The Python errors the slicing can raise: a zero chunk count divides by zero, and an
      empty playlist makes `items_per_chunk` zero, which `range` refuses as a step. */
  datatype SplitError = ZeroDivision | ZeroRangeStep

  /** One output file: `chunk_{index}.json` and its contents. */
  datatype ChunkFile = ChunkFile(index: nat, data: PlaylistDetailsWithTranscripts)

  /** `math.ceil(a / b)` on exact integers. */
  function CeilDiv(a: nat, b: nat): (r: nat)
    requires b > 0
    ensures a <= r * b < a + b
  {
    var x := a + b - 1;
    assert x == (x / b) * b + x % b;
    x / b
  }

  /** Only an empty playlist gives zero items per chunk. */
  lemma CeilDivZero(a: nat, b: nat)
    requires b > 0
    ensures CeilDiv(a, b) == 0 <==> a == 0
  {
    if a > 0 {
      assert a + b - 1 >= b;
      DivAtLeastOne(a + b - 1, b);
    }
  }

  lemma DivAtLeastOne(x: nat, n: nat)
    requires 0 < n <= x
    ensures x / n >= 1
  {
  }

  function Min(a: int, b: int): int
  {
    if a <= b then a else b
  }

  /** The video ids of some playlist items. */
  function ItemIds(items: seq<PlaylistItem>): set<string>
  {
    set j | 0 <= j < |items| :: items[j].videoId
  }

  /** The dict comprehension: the transcripts of the given items' videos, for the ids that
      have one. */
  function RestrictTranscripts(items: seq<PlaylistItem>, transcripts: map<string, Transcript>)
    : (m: map<string, Transcript>)
    ensures forall id :: id in m <==> id in transcripts && id in ItemIds(items)
    ensures forall id :: id in m ==> m[id] == transcripts[id]
  {
    map id | id in ItemIds(items) && id in transcripts :: transcripts[id]
  }

  /** The slice of the k-th chunk file, clamped to the items as Python slicing is. */
  function Slice(items: seq<PlaylistItem>, k: nat, itemsPerChunk: nat): seq<PlaylistItem>
  {
    items[Min(k * itemsPerChunk, |items|) .. Min((k + 1) * itemsPerChunk, |items|)]
  }

  /** The slices of the chunk files, in order. */
  function SlicesOf(files: seq<ChunkFile>): (r: seq<seq<PlaylistItem>>)
    ensures |r| == |files| && forall k :: 0 <= k < |files| ==> r[k] == files[k].data.playlistItems
  {
    seq(|files|, k requires 0 <= k < |files| => files[k].data.playlistItems)
  }

  lemma MulStep(k: int, n: int)
    ensures (k + 1) * n == k * n + n
  {
  }

  lemma MulAtLeast(a: int, n: nat)
    requires a >= 1
    ensures a * n >= n
  {
  }

  lemma MulSub(a: int, b: int, n: int)
    ensures (a - b) * n == a * n - b * n
  {
  }

  lemma DivExact(k: nat, n: nat)
    requires n > 0
    ensures (k * n) / n == k
  {
    var q, r := (k * n) / n, (k * n) % n;
    assert k * n == q * n + r && 0 <= r < n;
    if q < k {
      MulSub(k, q, n);
      MulAtLeast(k - q, n);
    } else if q > k {
      MulSub(q, k, n);
      MulAtLeast(q - k, n);
    }
  }

  /** Fewer than b * c items need at most c slices of b: `ceil(n / ceil(n / c)) <= c`. */
  lemma {:induction false} FileCountBound(files: nat, itemsPerChunk: nat, total: nat, chunkCount: nat)
    requires chunkCount > 0 && itemsPerChunk == CeilDiv(total, chunkCount) && itemsPerChunk > 0
    requires (files - 1) * itemsPerChunk < total
    ensures files <= chunkCount
  {
    var x := total + chunkCount - 1;
    assert x == (x / chunkCount) * chunkCount + x % chunkCount;
    assert total <= chunkCount * itemsPerChunk;
    if files - 1 >= chunkCount {
      MulMonotone(chunkCount, files - 1, itemsPerChunk);
    }
  }

  /** The k-th chunk file: index k, the k-th slice, the playlist id and the slice's transcripts. */
  function ChunkFileAt(data: PlaylistDetailsWithTranscripts, k: nat, itemsPerChunk: nat): ChunkFile
  {
    var chunkItems := Slice(data.playlistItems, k, itemsPerChunk);
    ChunkFile(k, PlaylistDetailsWithTranscripts(data.playlistId, chunkItems, RestrictTranscripts(chunkItems, data.transcripts)))
  }

  /** The slices so far, concatenated, are a prefix of the items; one more slice extends it. */
  lemma SliceExtends(items: seq<PlaylistItem>, k: nat, itemsPerChunk: nat)
    requires k * itemsPerChunk <= |items|
    ensures items[..k * itemsPerChunk] + Slice(items, k, itemsPerChunk)
      == items[..Min((k + 1) * itemsPerChunk, |items|)]
  {
  }

  /** A slice holds itemsPerChunk items, except the last, which holds at least one. */
  lemma SliceSize(items: seq<PlaylistItem>, k: nat, itemsPerChunk: nat, count: nat)
    requires itemsPerChunk > 0 && k < count
    requires (count - 1) * itemsPerChunk < |items| <= count * itemsPerChunk
    ensures k * itemsPerChunk < |items|
    ensures 0 < |Slice(items, k, itemsPerChunk)| <= itemsPerChunk
    ensures k < count - 1 ==> |Slice(items, k, itemsPerChunk)| == itemsPerChunk
  {
    MulStep(k, itemsPerChunk);
    if k < count - 1 {
      MulMonotone(k + 1, count - 1, itemsPerChunk);
    } else {
      assert k == count - 1;
    }
  }

  lemma MulMonotone(a: nat, b: nat, n: nat)
    requires a <= b
    ensures a * n <= b * n
  {
  }

  /** One iteration's chunk file, for the slice starting at item i = k * itemsPerChunk. */
  method MakeChunkFile(data: PlaylistDetailsWithTranscripts, ghost k: nat, i: nat, itemsPerChunk: nat)
    returns (file: ChunkFile)
    requires itemsPerChunk > 0 && i == k * itemsPerChunk && i < |data.playlistItems|
    ensures file == ChunkFileAt(data, k, itemsPerChunk)
  {
    var chunkItems := data.playlistItems[i .. Min(i + itemsPerChunk, |data.playlistItems|)];
    var chunkData := PlaylistDetailsWithTranscripts(
      data.playlistId, chunkItems, RestrictTranscripts(chunkItems, data.transcripts));
    DivExact(k, itemsPerChunk);
    MulStep(k, itemsPerChunk);
    file := ChunkFile(i / itemsPerChunk, chunkData);
  }

  /** Appending the next chunk file extends the covered prefix by its slice. */
  lemma AppendChunkFile(data: PlaylistDetailsWithTranscripts, files: seq<ChunkFile>, file: ChunkFile, itemsPerChunk: nat)
    requires |files| * itemsPerChunk < |data.playlistItems|
    requires Flatten(SlicesOf(files)) == data.playlistItems[..|files| * itemsPerChunk]
    requires file == ChunkFileAt(data, |files|, itemsPerChunk)
    ensures Flatten(SlicesOf(files + [file]))
      == data.playlistItems[..Min((|files| + 1) * itemsPerChunk, |data.playlistItems|)]
  {
    var chunkItems := file.data.playlistItems;
    assert SlicesOf(files + [file]) == SlicesOf(files) + [chunkItems];
    FlattenAppend(SlicesOf(files), [chunkItems]);
    FlattenSingleton(chunkItems);
    SliceExtends(data.playlistItems, |files|, itemsPerChunk);
  }

  /** The files are the chunk files 0, 1, ... of itemsPerChunk items each, just enough
      of them to hold every item. */
  predicate SlicedBy(data: PlaylistDetailsWithTranscripts, files: seq<ChunkFile>, itemsPerChunk: nat)
  {
    && (|files| - 1) * itemsPerChunk < |data.playlistItems| <= |files| * itemsPerChunk
    && forall k :: 0 <= k < |files| ==> files[k] == ChunkFileAt(data, k, itemsPerChunk)
  }

  /** The `for` loop: one chunk file per step of itemsPerChunk items. */
  method SliceFiles(data: PlaylistDetailsWithTranscripts, itemsPerChunk: nat) returns (files: seq<ChunkFile>)
    requires itemsPerChunk > 0
    ensures SlicedBy(data, files, itemsPerChunk)
    ensures Flatten(SlicesOf(files)) == data.playlistItems
  {
    var totalItems := |data.playlistItems|;
    files := [];
    var i := 0;
    while i < totalItems
      invariant i == |files| * itemsPerChunk
      invariant i < totalItems + itemsPerChunk
      invariant Flatten(SlicesOf(files)) == data.playlistItems[..Min(i, totalItems)]
      invariant forall k :: 0 <= k < |files| ==>
        files[k] == ChunkFileAt(data, k, itemsPerChunk)
      decreases totalItems - i
    {
      var file := MakeChunkFile(data, |files|, i, itemsPerChunk);
      MulStep(|files|, itemsPerChunk);
      AppendChunkFile(data, files, file, itemsPerChunk);
      files := files + [file];
      i := i + itemsPerChunk;
    }
    assert data.playlistItems[..totalItems] == data.playlistItems;
    MulStep(|files| - 1, itemsPerChunk);
  }

  /** The chunk files `split_json_file` writes, or the error it raises. */
  method SplitJsonFile(data: PlaylistDetailsWithTranscripts, chunkCount: nat)
    returns (r: Result<seq<ChunkFile>, SplitError>)
    ensures chunkCount == 0 ==> r == Err(ZeroDivision)
    ensures chunkCount > 0 && data.playlistItems == [] ==> r == Err(ZeroRangeStep)
    ensures r.Ok? <==> chunkCount > 0 && data.playlistItems != []
    ensures r.Ok? ==> CeilDiv(|data.playlistItems|, chunkCount) > 0
    ensures r.Ok? ==> SlicedBy(data, r.value, CeilDiv(|data.playlistItems|, chunkCount))
    ensures r.Ok? ==> Flatten(SlicesOf(r.value)) == data.playlistItems
    ensures r.Ok? ==> 0 < |r.value| <= chunkCount
  {
    var totalItems := |data.playlistItems|;
    if chunkCount == 0 {
      return Err(ZeroDivision);
    }
    var itemsPerChunk := CeilDiv(totalItems, chunkCount);
    CeilDivZero(totalItems, chunkCount);
    if itemsPerChunk == 0 {
      return Err(ZeroRangeStep);
    }
    var files := SliceFiles(data, itemsPerChunk);
    FileCountBound(|files|, itemsPerChunk, totalItems, chunkCount);
    return Ok(files);
  }

  /** Each chunk file holds itemsPerChunk items, except the last, which holds at least one;
      it copies the playlist id and carries, for every video of its slice that has a
      transcript, that transcript, and nothing else. */
  lemma ChunkFileContents(data: PlaylistDetailsWithTranscripts, files: seq<ChunkFile>, itemsPerChunk: nat, k: nat)
    requires itemsPerChunk > 0 && k < |files|
    requires SlicedBy(data, files, itemsPerChunk)
    ensures files[k].index == k && files[k].data.playlistId == data.playlistId
    ensures 0 < |files[k].data.playlistItems| <= itemsPerChunk
    ensures k < |files| - 1 ==> |files[k].data.playlistItems| == itemsPerChunk
    ensures forall id :: id in files[k].data.transcripts <==>
      id in data.transcripts && id in ItemIds(files[k].data.playlistItems)
    ensures forall id :: id in files[k].data.transcripts ==> files[k].data.transcripts[id] == data.transcripts[id]
  {
    SliceSize(data.playlistItems, k, itemsPerChunk, |files|);
  }
}
