/**
 * The NCM playlist import end to end: `importNcmSheet` resolves the
 * user's link or id, `getNcmPlaylistTrackIds` lists the playlist,
 * `processNcmPlaylistImport` fetches the song details in batches of 200
 * and then looks every song up in the Emby library, five searches at a
 * time, keeping the ones that matched in playlist order.  The NCM
 * endpoints and the Emby gateway are parameters.
 */
module Pipeline {
  import opened Common
  import opened Items
  import opened EmbyApi
  import opened Playback
  import opened Matching
  import opened Batching
  import opened Resolver

  /** How many searches are awaited together. */
  const ImportConcurrency := 5

  // ---------------------------------------------------------------------------
  // The NCM side

  /** What the playlist-detail request yields: a failure, or the body's `playlist.trackIds` (as ids). */
  datatype PlaylistResponse = PlaylistFailed | PlaylistOk(trackIds: Option<seq<nat>>)

  /** The two NCM endpoints the import calls. */
  datatype Upstream = Upstream(playlist: string -> PlaylistResponse, details: DetailsEndpoint)

  /** Why an import throws. */
  datatype ImportError =
    | UnrecognizedLink       // the pattern did not match
    | NoPlaylistId           // the pattern matched but captured nothing
    | PlaylistUnavailable    // the playlist request failed or carried no `trackIds`

  /** `getNcmPlaylistTrackIds`: the ids, or an error when the request fails or the list is missing. */
  function PlaylistTrackIds(id: string, playlist: string -> PlaylistResponse): (r: Result<seq<nat>, ImportError>)
    ensures r.Err? <==> playlist(id).PlaylistFailed? || playlist(id).trackIds.None?
    ensures r.Err? ==> r.error == PlaylistUnavailable
    ensures r.Ok? ==> r.value == playlist(id).trackIds.value
  {
    match playlist(id)
    case PlaylistFailed => Err(PlaylistUnavailable)
    case PlaylistOk(trackIds) =>
      if trackIds.None? then Err(PlaylistUnavailable) else Ok(trackIds.value)
  }

  /** The formatted NCM tracks of all batches of `ids`, in batch order. */
  function FetchedTracks(ids: seq<nat>, details: DetailsEndpoint): seq<MusicItem> {
    FetchedBatches(Chunks(ids), details)
  }

  // ---------------------------------------------------------------------------
  // Keeping the truthy results

  /** The present values of `rs`, in order (`forEach(t => { if (t) push(t) })`). */
  function Somes<T>(rs: seq<Option<T>>): (r: seq<T>)
    ensures |r| <= |rs|
    decreases |rs|
  {
    if rs == [] then []
    else (if rs[0].Some? then [rs[0].value] else []) + Somes(rs[1..])
  }

  lemma {:induction false} SomesAppend<T>(a: seq<Option<T>>, b: seq<Option<T>>)
    ensures Somes(a + b) == Somes(a) + Somes(b)
    decreases |a|
  {
    if a == [] {
      assert a + b == b;
    } else {
      assert (a + b)[0] == a[0];
      assert (a + b)[1..] == a[1..] + b;
      SomesAppend(a[1..], b);
    }
  }

  /** A value is kept exactly when some result holds it. */
  lemma {:induction false} SomesMembership<T>(rs: seq<Option<T>>, x: T)
    ensures x in Somes(rs) <==> Some(x) in rs
    decreases |rs|
  {
    if rs != [] {
      SomesMembership(rs[1..], x);
      assert rs == [rs[0]] + rs[1..];
    }
  }

  /** Nothing is dropped exactly when every result is present, and then the values keep their positions. */
  lemma {:induction false} SomesAllPresent<T>(rs: seq<Option<T>>)
    ensures |Somes(rs)| == |rs| <==> forall k :: 0 <= k < |rs| ==> rs[k].Some?
    ensures (forall k :: 0 <= k < |rs| ==> rs[k].Some?) ==> forall k :: 0 <= k < |rs| ==> Somes(rs)[k] == rs[k].value
    decreases |rs|
  {
    if rs != [] {
      SomesAllPresent(rs[1..]);
      assert forall k :: 1 <= k < |rs| ==> rs[k] == rs[1..][k - 1];
      if rs[0].None? {
        assert |Somes(rs)| == |Somes(rs[1..])| <= |rs| - 1;
      }
    }
  }

  /** The results of the settled searches, kept in the order they were submitted. */
  method Settle(results: seq<Option<MusicItem>>, matched: seq<MusicItem>) returns (out: seq<MusicItem>)
    ensures out == matched + Somes(results)
  {
    out := matched;
    var j := 0;
    while j < |results|
      invariant 0 <= j <= |results|
      invariant out == matched + Somes(results[..j])
    {
      SomesAppend(results[..j], [results[j]]);
      assert results[..j + 1] == results[..j] + [results[j]];
      if results[j].Some? {
        out := out + [results[j].value];
      }
      j := j + 1;
    }
    assert results[..j] == results;
  }

  // ---------------------------------------------------------------------------
  // Matching every track

  /** `f` applied to each element, in order. */
  function MapSeq<A, B>(s: seq<A>, f: A -> B): (r: seq<B>)
    ensures |r| == |s|
    ensures forall k :: 0 <= k < |s| ==> r[k] == f(s[k])
  {
    seq(|s|, k requires 0 <= k < |s| => f(s[k]))
  }

  /**
   * One more search started: the values kept so far and those still
   * pending make up the results of a prefix one track longer.
   */
  lemma {:induction false} StartOneMore<A, B>(s: seq<A>, f: A -> Option<B>, i: nat, pending: seq<Option<B>>, kept: seq<B>)
    requires i < |s|
    requires kept + Somes(pending) == Somes(MapSeq(s[..i], f))
    ensures kept + Somes(pending + [f(s[i])]) == Somes(MapSeq(s[..i + 1], f))
  {
    assert MapSeq(s[..i + 1], f) == MapSeq(s[..i], f) + [f(s[i])];
    SomesAppend(pending, [f(s[i])]);
    SomesAppend(MapSeq(s[..i], f), [f(s[i])]);
  }

  /** The search of one track, as a function value. */
  function Matcher(host: string, gateway: Gateway): MusicItem -> Option<MusicItem> {
    (t: MusicItem) => MatchTrack(host, gateway, t)
  }

  /** What `findAndMergeNcmTrackOnEmby` resolves to for each track, in order. */
  function MatchEach(host: string, gateway: Gateway, tracks: seq<MusicItem>): (r: seq<Option<MusicItem>>)
    ensures |r| == |tracks|
  {
    MapSeq(tracks, Matcher(host, gateway))
  }

  /**
   * The matching loop of `processNcmPlaylistImport`: searches are started
   * one per track and awaited five at a time (and the remainder at the
   * end); the truthy results are kept in submission order.  However the
   * searches interleave, the outcome is that of matching every track in
   * turn.
   */
  method MatchAll(host: string, gateway: Gateway, ncmTracks: seq<MusicItem>) returns (matched: seq<MusicItem>)
    ensures matched == Somes(MatchEach(host, gateway, ncmTracks))
  {
    ghost var search := Matcher(host, gateway);
    matched := [];
    var searches: seq<Option<MusicItem>> := [];
    var i := 0;
    while i < |ncmTracks|
      invariant i <= |ncmTracks|
      invariant |searches| < ImportConcurrency
      invariant matched + Somes(searches) == Somes(MapSeq(ncmTracks[..i], search))
    {
      var merged := FindAndMergeNcmTrackOnEmby(host, gateway, ncmTracks[i]);
      assert merged == search(ncmTracks[i]);
      StartOneMore(ncmTracks, search, i, searches, matched);
      searches := searches + [merged];
      i := i + 1;
      if |searches| >= ImportConcurrency {
        matched := Settle(searches, matched);
        searches := [];
      }
    }
    if |searches| > 0 {
      matched := Settle(searches, matched);
    }
    assert ncmTracks[..i] == ncmTracks;
  }

  // ---------------------------------------------------------------------------
  // The import

  /** What `processNcmPlaylistImport(id)` resolves to, or the error it throws. */
  function PlaylistImport(id: string, host: string, gateway: Gateway, upstream: Upstream): (r: Result<seq<MusicItem>, ImportError>)
    ensures r.Err? <==> PlaylistTrackIds(id, upstream.playlist).Err?
    ensures r.Err? ==> r.error == PlaylistUnavailable
    ensures r.Ok? && PlaylistTrackIds(id, upstream.playlist).value == [] ==> r.value == []
    ensures r.Ok? ==> r.value == Somes(MatchEach(host, gateway, FetchedTracks(PlaylistTrackIds(id, upstream.playlist).value, upstream.details)))
  {
    match PlaylistTrackIds(id, upstream.playlist)
    case Err(e) => Err(e)
    case Ok(trackIds) =>
      if |trackIds| == 0 then Ok([])
      else Ok(Somes(MatchEach(host, gateway, FetchedTracks(trackIds, upstream.details))))
  }

  /** `processNcmPlaylistImport`. */
  method ProcessNcmPlaylistImport(id: string, host: string, gateway: Gateway, upstream: Upstream)
    returns (r: Result<seq<MusicItem>, ImportError>)
    ensures r == PlaylistImport(id, host, gateway, upstream)
  {
    var ids := PlaylistTrackIds(id, upstream.playlist);
    if ids.Err? {
      return Err(ids.error);
    }
    var trackIds := ids.value;
    if |trackIds| == 0 {
      return Ok([]);
    }
    var ncmTracks := FetchNcmTracks(trackIds, upstream.details);
    var matched := MatchAll(host, gateway, ncmTracks);
    return Ok(matched);
  }

  /** What `importNcmSheet(urlLike)` resolves to, or the error it throws. */
  function SheetImport(urlLike: string, host: string, gateway: Gateway, upstream: Upstream): (r: Result<seq<MusicItem>, ImportError>)
    ensures r != Err(NoPlaylistId)
    ensures r == Err(UnrecognizedLink) <==> Resolve(urlLike).Err?
    ensures Resolve(urlLike).Ok? ==> r == PlaylistImport(Resolve(urlLike).value, host, gateway, upstream)
  {
    match Resolve(urlLike)
    case Err(UnrecognizedReference) => Err(UnrecognizedLink)
    case Err(NoIdExtracted) => Err(NoPlaylistId)
    case Ok(id) => PlaylistImport(id, host, gateway, upstream)
  }

  /** `importNcmSheet`. */
  method ImportNcmSheet(urlLike: string, host: string, gateway: Gateway, upstream: Upstream)
    returns (r: Result<seq<MusicItem>, ImportError>)
    ensures r == SheetImport(urlLike, host, gateway, upstream)
  {
    var id := Resolve(urlLike);
    if id.Err? {
      if id.error == UnrecognizedReference {
        return Err(UnrecognizedLink);
      }
      return Err(NoPlaylistId);
    }
    r := ProcessNcmPlaylistImport(id.value, host, gateway, upstream);
  }

  // ---------------------------------------------------------------------------
  // What an import promises

  /**
   * Every imported track is the merge of one fetched NCM track with a
   * library item: tagged `emby_ncm_artwork`, and so streamable.
   */
  lemma ImportedTracksAreMerged(id: string, host: string, gateway: Gateway, upstream: Upstream, x: MusicItem)
    requires PlaylistImport(id, host, gateway, upstream).Ok?
    requires x in PlaylistImport(id, host, gateway, upstream).value
    ensures x.source == SourceEmbyNcmArtwork && Playable(x)
    ensures PlaylistTrackIds(id, upstream.playlist).Ok?
    ensures exists t :: t in FetchedTracks(PlaylistTrackIds(id, upstream.playlist).value, upstream.details)
                     && MatchTrack(host, gateway, t) == Some(x)
  {
    var trackIds := PlaylistTrackIds(id, upstream.playlist).value;
    var tracks := FetchedTracks(trackIds, upstream.details);
    var rs := MatchEach(host, gateway, tracks);
    assert |trackIds| > 0;
    SomesMembership(rs, x);
    var k :| 0 <= k < |rs| && rs[k] == Some(x);
    MatchProvenance(host, gateway, tracks[k]);
    assert tracks[k] in tracks;
  }

  /** At most one library track per fetched NCM track; exactly one each when every track matched. */
  lemma ImportSize(id: string, host: string, gateway: Gateway, upstream: Upstream)
    requires PlaylistImport(id, host, gateway, upstream).Ok?
    ensures var tracks := FetchedTracks(PlaylistTrackIds(id, upstream.playlist).value, upstream.details);
      && |PlaylistImport(id, host, gateway, upstream).value| <= |tracks|
      && (|PlaylistImport(id, host, gateway, upstream).value| == |tracks| <==>
            forall k :: 0 <= k < |tracks| ==> MatchTrack(host, gateway, tracks[k]).Some?)
  {
    var trackIds := PlaylistTrackIds(id, upstream.playlist).value;
    var tracks := FetchedTracks(trackIds, upstream.details);
    SomesAllPresent(MatchEach(host, gateway, tracks));
    if |trackIds| == 0 {
      assert Chunks(trackIds) == [];
    }
  }

  lemma {:induction false} ConcatMapAllEmpty<B, X>(batches: seq<B>, f: B -> seq<X>)
    requires forall k :: 0 <= k < |batches| ==> f(batches[k]) == []
    ensures ConcatMap(batches, f) == []
    decreases |batches|
  {
    if batches != [] {
      assert f(batches[0]) == [];
      ConcatMapAllEmpty(batches[1..], f);
    }
  }

  /** When every detail request fails the import still succeeds, with nothing in it. */
  lemma DetailsDownImportsNothing(id: string, host: string, gateway: Gateway, upstream: Upstream)
    requires PlaylistTrackIds(id, upstream.playlist).Ok?
    requires forall b :: upstream.details(b).DetailsFailed?
    ensures PlaylistImport(id, host, gateway, upstream) == Ok([])
  {
    var batches := Chunks(PlaylistTrackIds(id, upstream.playlist).value);
    ConcatMapAllEmpty(batches, (b: seq<nat>) => TrackDetails(b, upstream.details));
  }

  /**
   * The import throws only for an unrecognised reference or an
   * unavailable playlist: a recognised reference always yields a
   * non-empty decimal id taken from the input.  An unrecognised one is
   * rejected before any request.
   */
  lemma SheetImportErrors(urlLike: string, host: string, gateway: Gateway, upstream: Upstream)
    ensures SheetImport(urlLike, host, gateway, upstream) != Err(NoPlaylistId)
    ensures SheetImport(urlLike, host, gateway, upstream) == Err(UnrecognizedLink) <==> Resolve(urlLike).Err?
    ensures Resolve(urlLike).Ok? ==>
      && (exists q :: IsIdAt(urlLike, q, Resolve(urlLike).value))
      && SheetImport(urlLike, host, gateway, upstream) == PlaylistImport(Resolve(urlLike).value, host, gateway, upstream)
  {
    ResolvedIdIsDigits(urlLike);
  }

  /** A bare decimal id, blanks around it allowed, imports that playlist. */
  lemma BareIdImports(lead: string, d: string, trail: string, host: string, gateway: Gateway, upstream: Upstream)
    requires AllBlank(lead) && AllBlank(trail)
    requires |d| > 0 && AllDigits(d)
    ensures SheetImport(lead + d + trail, host, gateway, upstream) == PlaylistImport(d, host, gateway, upstream)
  {
    BareIdResolves(lead, d, trail);
  }

  /** The list `PlaylistImport` returns for a playlist whose every track matches is the merged tracks, in playlist order. */
  lemma AllMatchedInOrder(id: string, host: string, gateway: Gateway, upstream: Upstream)
    requires PlaylistImport(id, host, gateway, upstream).Ok?
    requires var tracks := FetchedTracks(PlaylistTrackIds(id, upstream.playlist).value, upstream.details);
      forall k :: 0 <= k < |tracks| ==> MatchTrack(host, gateway, tracks[k]).Some?
    ensures var tracks := FetchedTracks(PlaylistTrackIds(id, upstream.playlist).value, upstream.details);
      && |PlaylistImport(id, host, gateway, upstream).value| == |tracks|
      && forall k :: 0 <= k < |tracks| ==>
           PlaylistImport(id, host, gateway, upstream).value[k] == MatchTrack(host, gateway, tracks[k]).value
  {
    var trackIds := PlaylistTrackIds(id, upstream.playlist).value;
    var tracks := FetchedTracks(trackIds, upstream.details);
    SomesAllPresent(MatchEach(host, gateway, tracks));
    if |trackIds| == 0 {
      assert Chunks(trackIds) == [];
    }
  }
}
