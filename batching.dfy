/**
 * Fetching NCM track metadata: the playlist's track ids are sliced into
 * batches of 200 (`trackIds.slice(i, i + 200)`), each batch is one detail
 * request, and the formatted songs are concatenated in batch order.  The
 * detail endpoint is a parameter; a batch whose request fails contributes
 * nothing.
 */
module Batching {
  import opened Common
  import opened Items

  const BatchSize := 200

  /** The batches, in order: slices of 200 ids, the last one possibly shorter. */
  function Chunks<T>(s: seq<T>): (r: seq<seq<T>>)
    ensures forall i :: 0 <= i < |r| ==> 0 < |r[i]| <= BatchSize
    ensures s == [] <==> r == []
    decreases |s|
  {
    if |s| == 0 then [] else
      var k := Min(BatchSize, |s|);
      [s[..k]] + Chunks(s[k..])
  }

  function Flatten<T>(cs: seq<seq<T>>): seq<T>
    decreases |cs|
  {
    if cs == [] then [] else cs[0] + Flatten(cs[1..])
  }

  lemma {:induction false} FlattenAppend<T>(a: seq<seq<T>>, b: seq<seq<T>>)
    ensures Flatten(a + b) == Flatten(a) + Flatten(b)
    decreases |a|
  {
    if a == [] {
      assert a + b == b;
    } else {
      assert (a + b)[0] == a[0];
      assert (a + b)[1..] == a[1..] + b;
      FlattenAppend(a[1..], b);
    }
  }

  /** Concatenating the batches gives back the ids, in order. */
  lemma {:induction false} ChunksFlatten<T>(s: seq<T>)
    ensures Flatten(Chunks(s)) == s
    decreases |s|
  {
    if |s| > 0 {
      var k := Min(BatchSize, |s|);
      ChunksFlatten(s[k..]);
      assert s[..k] + s[k..] == s;
    }
  }

  /** Every batch is non-empty and holds at most 200 ids; all but the last hold exactly 200. */
  lemma {:induction false} ChunkSizes<T>(s: seq<T>)
    ensures forall i :: 0 <= i < |Chunks(s)| ==> 0 < |Chunks(s)[i]| <= BatchSize
    ensures forall i :: 0 <= i < |Chunks(s)| - 1 ==> |Chunks(s)[i]| == BatchSize
    decreases |s|
  {
    if |s| > 0 {
      var k := Min(BatchSize, |s|);
      ChunkSizes(s[k..]);
      assert forall i :: 1 <= i < |Chunks(s)| ==> Chunks(s)[i] == Chunks(s[k..])[i - 1];
    }
  }

  /** There are ceil(n / 200) batches. */
  lemma {:induction false} ChunkCount<T>(s: seq<T>)
    ensures |Chunks(s)| == (|s| + BatchSize - 1) / BatchSize
    decreases |s|
  {
    if |s| > 0 {
      var k := Min(BatchSize, |s|);
      ChunkCount(s[k..]);
    }
  }

  /** Batch `i` is the slice starting at `200 * i`, as the source's loop takes it. */
  lemma {:induction false} ChunkAt<T>(s: seq<T>, i: nat)
    requires i < |Chunks(s)|
    ensures 200 * i < |s|
    ensures Chunks(s)[i] == s[200 * i .. Min(200 * i + 200, |s|)]
    decreases |s|
  {
    var k := Min(BatchSize, |s|);
    if i > 0 {
      assert Chunks(s) == [s[..k]] + Chunks(s[k..]);
      ChunkAt(s[k..], i - 1);
      assert |s[k..]| > 0;
      assert s[k..][200 * (i - 1) .. Min(200 * (i - 1) + 200, |s| - k)] == s[200 * i .. Min(200 * i + 200, |s|)];
    }
  }

  /** Four hundred and fifty ids make three requests, of 200, 200 and 50 ids. */
  lemma FourHundredFiftyIds<T>(s: seq<T>)
    requires |s| == 450
    ensures |Chunks(s)| == 3
    ensures |Chunks(s)[0]| == 200 && |Chunks(s)[1]| == 200 && |Chunks(s)[2]| == 50
  {
    ChunkCount(s);
    ChunkAt(s, 0);
    ChunkAt(s, 1);
    ChunkAt(s, 2);
  }

  // ---------------------------------------------------------------------------
  // The detail requests

  /** What the song-detail request yields: a failure, or the body's `songs`. */
  datatype DetailsResponse = DetailsFailed | DetailsOk(songs: Option<seq<NcmSong>>)

  /** The song-detail endpoint for a batch of ids. */
  type DetailsEndpoint = seq<nat> -> DetailsResponse

  /** `songs.map(formatNcmMusicItem)`. */
  function FormatAll(songs: seq<NcmSong>): (r: seq<MusicItem>)
    ensures |r| == |songs|
    ensures forall k :: 0 <= k < |songs| ==> r[k] == FormatNcmMusicItem(songs[k])
  {
    seq(|songs|, k requires 0 <= k < |songs| => FormatNcmMusicItem(songs[k]))
  }

  /** `getNcmTrackDetails`: no request for no ids; anything but a non-empty `songs` list yields no tracks. */
  function TrackDetails(ids: seq<nat>, details: DetailsEndpoint): (r: seq<MusicItem>)
    ensures ids == [] ==> r == []
    ensures details(ids).DetailsFailed? ==> r == []
    ensures |r| > 0 ==> details(ids).DetailsOk? && details(ids).songs.Some? && r == FormatAll(details(ids).songs.value)
    ensures ids != [] && details(ids).DetailsOk? && details(ids).songs.Some? ==> r == FormatAll(details(ids).songs.value)
  {
    if |ids| == 0 then []
    else match details(ids)
      case DetailsFailed => []
      case DetailsOk(songs) =>
        if songs.Some? && |songs.value| > 0 then FormatAll(songs.value) else []
  }

  /** `f` applied to each batch, the results concatenated in batch order. */
  function ConcatMap<B, X>(batches: seq<B>, f: B -> seq<X>): seq<X>
    decreases |batches|
  {
    if batches == [] then [] else f(batches[0]) + ConcatMap(batches[1..], f)
  }

  lemma {:induction false} ConcatMapAppend<B, X>(a: seq<B>, b: seq<B>, f: B -> seq<X>)
    ensures ConcatMap(a + b, f) == ConcatMap(a, f) + ConcatMap(b, f)
    decreases |a|
  {
    if a == [] {
      assert a + b == b;
    } else {
      assert (a + b)[0] == a[0];
      assert (a + b)[1..] == a[1..] + b;
      ConcatMapAppend(a[1..], b, f);
    }
  }

  lemma ConcatMapCons<B, X>(x: B, rest: seq<B>, f: B -> seq<X>)
    ensures ConcatMap([x] + rest, f) == f(x) + ConcatMap(rest, f)
  {
    assert ([x] + rest)[0] == x;
    assert ([x] + rest)[1..] == rest;
  }

  /** The tracks of a sequence of batches, concatenated in batch order. */
  function FetchedBatches(batches: seq<seq<nat>>, details: DetailsEndpoint): seq<MusicItem> {
    ConcatMap(batches, (b: seq<nat>) => TrackDetails(b, details))
  }

  /** A failing batch is dropped; the batches around it keep their tracks and their order. */
  lemma FailedBatchDropped(batches: seq<seq<nat>>, j: nat, details: DetailsEndpoint)
    requires j < |batches| && details(batches[j]).DetailsFailed?
    ensures FetchedBatches(batches, details) == FetchedBatches(batches[..j], details) + FetchedBatches(batches[j + 1..], details)
  {
    var f := (b: seq<nat>) => TrackDetails(b, details);
    var pre, post := batches[..j], batches[j + 1..];
    assert batches == pre + ([batches[j]] + post);
    ConcatMapAppend(pre, [batches[j]] + post, f);
    ConcatMapCons(batches[j], post, f);
  }

  /** The batches of a suffix: its first slice of at most 200 ids, then the batches of the rest. */
  lemma ChunksFrom<T>(s: seq<T>, i: nat)
    requires i < |s|
    ensures Chunks(s[i..]) == [s[i..Min(i + BatchSize, |s|)]] + Chunks(s[Min(i + BatchSize, |s|)..])
  {
    var rest := s[i..];
    assert rest[..Min(BatchSize, |rest|)] == s[i..Min(i + BatchSize, |s|)];
    assert rest[Min(BatchSize, |rest|)..] == s[Min(i + BatchSize, |s|)..];
  }

  lemma FetchedBatchesCons(b: seq<nat>, rest: seq<seq<nat>>, details: DetailsEndpoint)
    ensures FetchedBatches([b] + rest, details) == TrackDetails(b, details) + FetchedBatches(rest, details)
  {
    ConcatMapCons(b, rest, (b: seq<nat>) => TrackDetails(b, details));
  }

  /** The batch loop of `processNcmPlaylistImport`. */
  method FetchNcmTracks(trackIds: seq<nat>, details: DetailsEndpoint) returns (ncmTracks: seq<MusicItem>)
    ensures ncmTracks == FetchedBatches(Chunks(trackIds), details)
  {
    ghost var all := FetchedBatches(Chunks(trackIds), details);
    ncmTracks := [];
    var i := 0;
    while i < |trackIds|
      invariant 0 <= i
      invariant ncmTracks + FetchedBatches(Chunks(trackIds[Min(i, |trackIds|)..]), details) == all
      decreases |trackIds| - i
    {
      var next := Min(i + BatchSize, |trackIds|);
      var batchIds := trackIds[i..next];
      var batchResult := TrackDetails(batchIds, details);
      ghost var later := FetchedBatches(Chunks(trackIds[next..]), details);
      ChunksFrom(trackIds, i);
      FetchedBatchesCons(batchIds, Chunks(trackIds[next..]), details);
      assert ncmTracks + (batchResult + later) == all;
      ncmTracks := ncmTracks + batchResult;
      i := i + BatchSize;
      assert ncmTracks + later == all;
    }
    assert trackIds[|trackIds|..] == [];
  }
}
