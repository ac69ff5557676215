/**
 * `findAndMergeNcmTrackOnEmby`: search the Emby library for one NCM track,
 * pick the best of the (at most five) candidates, and merge the winner
 * with the NCM track's artwork.
 *
 * Each candidate falls in one tier: 3 when title, artist and duration
 * match, 2 when title and artist match, 1 when title and duration match,
 * 0 otherwise.  The source's loop, with its running `bestMatch` and
 * `bestMatchScore` (-1, 15 or 10) and its `break` on a perfect match,
 * picks the earliest candidate of the highest non-zero tier; that is
 * `IsBestMatch` below, and `BestMatch` is a second, recursive definition
 * of it.
 */
module Matching {
  import opened Common
  import opened Items
  import opened EmbyApi

  const MatchResultCount := 5
  const DurationToleranceSeconds := 5

  predicate TitleMatch(ncm: MusicItem, c: MusicItem) {
    Lower(c.title) == Lower(ncm.title)
  }

  predicate ArtistMatch(ncm: MusicItem, c: MusicItem) {
    Lower(c.artist) == Lower(ncm.artist)
  }

  /** Both durations known and at most five seconds apart. */
  predicate DurationMatch(ncm: MusicItem, c: MusicItem) {
    c.duration.Some? && ncm.duration.Some? && Abs(c.duration.value - ncm.duration.value) <= DurationToleranceSeconds
  }

  function Tier(ncm: MusicItem, c: MusicItem): nat {
    if TitleMatch(ncm, c) && ArtistMatch(ncm, c) && DurationMatch(ncm, c) then 3
    else if TitleMatch(ncm, c) && ArtistMatch(ncm, c) then 2
    else if TitleMatch(ncm, c) && DurationMatch(ncm, c) then 1
    else 0
  }

  /** Among the first `n` candidates, the one at `k` has the highest tier, a non-zero one, and no earlier candidate reaches it. */
  ghost predicate LeadsPrefix(ncm: MusicItem, cands: seq<MusicItem>, n: nat, k: nat)
    requires k < n <= |cands|
  {
    && Tier(ncm, cands[k]) > 0
    && (forall j :: 0 <= j < n ==> Tier(ncm, cands[j]) <= Tier(ncm, cands[k]))
    && (forall j :: 0 <= j < k ==> Tier(ncm, cands[j]) < Tier(ncm, cands[k]))
  }

  /** `r` is the earliest candidate of the highest non-zero tier, or `None` when every candidate is in tier 0. */
  ghost predicate IsBestMatch(ncm: MusicItem, cands: seq<MusicItem>, r: Option<MusicItem>) {
    match r
    case None => forall j :: 0 <= j < |cands| ==> Tier(ncm, cands[j]) == 0
    case Some(c) => exists k :: 0 <= k < |cands| && cands[k] == c && LeadsPrefix(ncm, cands, |cands|, k)
  }

  function TierOf(ncm: MusicItem, r: Option<MusicItem>): nat {
    if r.Some? then Tier(ncm, r.value) else 0
  }

  /** The reference definition: the head wins when it is matched and no later candidate outranks it. */
  function BestMatch(ncm: MusicItem, cands: seq<MusicItem>): Option<MusicItem>
    decreases |cands|
  {
    if cands == [] then None
    else
      var rest := BestMatch(ncm, cands[1..]);
      if Tier(ncm, cands[0]) > 0 && Tier(ncm, cands[0]) >= TierOf(ncm, rest) then Some(cands[0]) else rest
  }

  lemma {:induction false} BestMatchIsBest(ncm: MusicItem, cands: seq<MusicItem>)
    ensures IsBestMatch(ncm, cands, BestMatch(ncm, cands))
    decreases |cands|
  {
    if cands != [] {
      var tail := cands[1..];
      var rest := BestMatch(ncm, tail);
      BestMatchIsBest(ncm, tail);
      if Tier(ncm, cands[0]) > 0 && Tier(ncm, cands[0]) >= TierOf(ncm, rest) {
        if rest.Some? {
          var k :| 0 <= k < |tail| && tail[k] == rest.value && LeadsPrefix(ncm, tail, |tail|, k);
          assert forall j :: 1 <= j < |cands| ==> Tier(ncm, cands[j]) == Tier(ncm, tail[j - 1]);
        }
        assert LeadsPrefix(ncm, cands, |cands|, 0);
      } else if rest.Some? {
        var k :| 0 <= k < |tail| && tail[k] == rest.value && LeadsPrefix(ncm, tail, |tail|, k);
        assert forall j :: 1 <= j < |cands| ==> Tier(ncm, cands[j]) == Tier(ncm, tail[j - 1]);
        assert cands[k + 1] == rest.value;
        assert LeadsPrefix(ncm, cands, |cands|, k + 1);
      } else {
        assert forall j :: 1 <= j < |cands| ==> Tier(ncm, cands[j]) == Tier(ncm, tail[j - 1]);
      }
    }
  }

  /** At most one outcome satisfies `IsBestMatch`. */
  lemma BestMatchUnique(ncm: MusicItem, cands: seq<MusicItem>, r1: Option<MusicItem>, r2: Option<MusicItem>)
    requires IsBestMatch(ncm, cands, r1) && IsBestMatch(ncm, cands, r2)
    ensures r1 == r2
  {
    if r1.Some? && r2.Some? {
      var k1 :| 0 <= k1 < |cands| && cands[k1] == r1.value && LeadsPrefix(ncm, cands, |cands|, k1);
      var k2 :| 0 <= k2 < |cands| && cands[k2] == r2.value && LeadsPrefix(ncm, cands, |cands|, k2);
      assert k1 == k2;
    }
  }

  /** The score the source keeps for a best match of tier 2 (15) or tier 1 (10). */
  function ScoreOfTier(t: nat): int {
    if t == 2 then 15 else 10
  }

  /** The scoring loop of `findAndMergeNcmTrackOnEmby` (the unused `currentScore` left out). */
  method FindBestMatch(ncm: MusicItem, cands: seq<MusicItem>) returns (bestMatch: Option<MusicItem>)
    ensures IsBestMatch(ncm, cands, bestMatch)
    ensures bestMatch == BestMatch(ncm, cands)
  {
    bestMatch := None;
    var bestMatchScore := -1;
    ghost var bestAt := 0;
    var i := 0;
    while i < |cands|
      invariant 0 <= i <= |cands|
      invariant forall j :: 0 <= j < i ==> Tier(ncm, cands[j]) < 3
      invariant bestMatch.None? ==> bestMatchScore == -1 && forall j :: 0 <= j < i ==> Tier(ncm, cands[j]) == 0
      invariant bestMatch.Some? ==>
        && bestAt < i
        && bestMatch.value == cands[bestAt]
        && LeadsPrefix(ncm, cands, i, bestAt)
        && bestMatchScore == ScoreOfTier(Tier(ncm, cands[bestAt]))
    {
      var embyTrack := cands[i];
      var titleMatch := Lower(embyTrack.title) == Lower(ncm.title);
      var artistMatch := Lower(embyTrack.artist) == Lower(ncm.artist);
      var durationMatch := false;
      if embyTrack.duration.Some? && ncm.duration.Some? {
        if Abs(embyTrack.duration.value - ncm.duration.value) <= DurationToleranceSeconds {
          durationMatch := true;
        }
      }
      if titleMatch && artistMatch && durationMatch {
        bestMatch := Some(embyTrack);
        bestAt := i;
        assert LeadsPrefix(ncm, cands, |cands|, i);
        break;
      }
      if titleMatch && artistMatch && bestMatchScore < 15 {
        bestMatch := Some(embyTrack);
        bestMatchScore := 15;
        bestAt := i;
      }
      if titleMatch && durationMatch && bestMatchScore < 10 {
        bestMatch := Some(embyTrack);
        bestMatchScore := 10;
        bestAt := i;
      }
      i := i + 1;
    }
    BestMatchIsBest(ncm, cands);
    BestMatchUnique(ncm, cands, bestMatch, BestMatch(ncm, cands));
  }

  // ---------------------------------------------------------------------------
  // Consequences of the selection rule

  /** The chosen candidate is one of the candidates, its title matches, and so does its artist or its duration. */
  lemma ChosenMatchesTitle(ncm: MusicItem, cands: seq<MusicItem>)
    ensures BestMatch(ncm, cands).Some? ==>
      var c := BestMatch(ncm, cands).value;
      c in cands && TitleMatch(ncm, c) && (ArtistMatch(ncm, c) || DurationMatch(ncm, c))
  {
    BestMatchIsBest(ncm, cands);
  }

  /** No candidate is chosen exactly when no candidate matches title with artist or duration; in particular with no candidates. */
  lemma NoMatchIffNoTier(ncm: MusicItem, cands: seq<MusicItem>)
    ensures BestMatch(ncm, cands).None? <==> forall j :: 0 <= j < |cands| ==> Tier(ncm, cands[j]) == 0
  {
    BestMatchIsBest(ncm, cands);
    if BestMatch(ncm, cands).Some? {
      var k :| 0 <= k < |cands| && cands[k] == BestMatch(ncm, cands).value && LeadsPrefix(ncm, cands, |cands|, k);
    }
  }

  /** The first perfect candidate is the result, whatever follows it: the scan stops there. */
  lemma FirstPerfectWins(ncm: MusicItem, cands: seq<MusicItem>, k: nat, later: seq<MusicItem>)
    requires k < |cands| && Tier(ncm, cands[k]) == 3
    requires forall j :: 0 <= j < k ==> Tier(ncm, cands[j]) < 3
    ensures BestMatch(ncm, cands) == Some(cands[k])
    ensures BestMatch(ncm, cands[..k + 1] + later) == Some(cands[k])
  {
    BestMatchIsBest(ncm, cands);
    assert LeadsPrefix(ncm, cands, |cands|, k);
    BestMatchUnique(ncm, cands, BestMatch(ncm, cands), Some(cands[k]));
    var s := cands[..k + 1] + later;
    BestMatchIsBest(ncm, s);
    assert s[k] == cands[k];
    assert LeadsPrefix(ncm, s, |s|, k);
    BestMatchUnique(ncm, s, BestMatch(ncm, s), Some(cands[k]));
  }

  /** A candidate is never chosen over one of a higher tier: title+artist beats title+duration wherever they stand. */
  lemma HigherTierPrevails(ncm: MusicItem, cands: seq<MusicItem>, i: nat, j: nat)
    requires i < |cands| && j < |cands|
    requires Tier(ncm, cands[i]) > Tier(ncm, cands[j])
    ensures BestMatch(ncm, cands) != Some(cands[j])
  {
    BestMatchIsBest(ncm, cands);
  }

  /**
   * Within a tier the first candidate wins: a later candidate of the same
   * tier, which does not also occur up to the earlier one, is never chosen.
   */
  lemma FirstWithinTierWins(ncm: MusicItem, cands: seq<MusicItem>, i: nat, j: nat)
    requires i < j < |cands|
    requires Tier(ncm, cands[i]) == Tier(ncm, cands[j])
    requires cands[j] !in cands[..i + 1]
    ensures BestMatch(ncm, cands) != Some(cands[j])
  {
    BestMatchIsBest(ncm, cands);
  }

  /**
   * The NCM formatter joins artists with "/" and the Emby formatter with
   * ", ", so a track with two or more artists never gets an artist match
   * against the same artists in the library.
   */
  lemma MultiArtistNeverMatches(song: NcmSong, item: EmbyItem, host: string)
    requires SongArtists(song).Some? && |SongArtists(song).value| >= 2
    requires item.artists == ArtistNames(SongArtists(song).value)
    ensures !ArtistMatch(FormatNcmMusicItem(song), FormatEmbyMusicItem(host, item))
  {
    var names := item.artists;
    JoinLengthGrows(names, "/", ", ");
    var slashed := Join(names, "/");
    var commaed := Join(names, ", ");
    assert |commaed| == |slashed| + |names| - 1;
    assert commaed[|names[0]|..|names[0]| + 2] == ", ";
    assert FormatEmbyMusicItem(host, item).artist == commaed;
    assert FormatNcmMusicItem(song).artist == slashed;
  }

  // ---------------------------------------------------------------------------
  // Merging and the whole per-track unit of work

  /** The merged record: playable identity and metadata from the library item, artwork from NCM. */
  function Merge(ncm: MusicItem, local: MusicItem): (r: MusicItem)
    ensures r.id == local.id && r.title == local.title && r.artist == local.artist
    ensures r.album == local.album && r.duration == local.duration
    ensures r.artwork == ncm.artwork && r.source == SourceEmbyNcmArtwork && r.ncmId.None?
  {
    MusicItem(local.id, local.title, local.artist, local.album, ncm.artwork, local.duration, SourceEmbyNcmArtwork, None)
  }

  /** The search text: `${title} ${artist}`. */
  function Query(ncm: MusicItem): (r: string)
    ensures |r| == |ncm.title| + 1 + |ncm.artist|
    ensures StartsWith(r, ncm.title) && r[|ncm.title|] == ' ' && r[|ncm.title| + 1..] == ncm.artist
  {
    ncm.title + " " + ncm.artist
  }

  /** The candidates the library offers for `ncm`, or `None` when the search throws. */
  function Candidates(host: string, gateway: Gateway, ncm: MusicItem): Option<seq<MusicItem>> {
    match SearchMusic(host, gateway, Query(ncm), 1, MatchResultCount)
    case Err(_) => None
    case Ok(page) => Some(page.data)
  }

  /** What `findAndMergeNcmTrackOnEmby` resolves to; a thrown search yields `None`. */
  function MatchTrack(host: string, gateway: Gateway, ncm: MusicItem): (r: Option<MusicItem>)
    ensures Candidates(host, gateway, ncm).None? ==> r.None?
    ensures r.Some? <==> Candidates(host, gateway, ncm).Some? && BestMatch(ncm, Candidates(host, gateway, ncm).value).Some?
    ensures r.Some? ==> r.value == Merge(ncm, BestMatch(ncm, Candidates(host, gateway, ncm).value).value)
  {
    match Candidates(host, gateway, ncm)
    case None => None
    case Some(cands) =>
      if cands == [] then None
      else
        match BestMatch(ncm, cands)
        case None => None
        case Some(best) => Some(Merge(ncm, best))
  }

  /** `findAndMergeNcmTrackOnEmby`. */
  method FindAndMergeNcmTrackOnEmby(host: string, gateway: Gateway, ncm: MusicItem) returns (r: Option<MusicItem>)
    ensures r == MatchTrack(host, gateway, ncm)
    ensures r.Some? ==> r.value.source == SourceEmbyNcmArtwork && r.value.artwork == ncm.artwork
  {
    var searchResult := SearchMusic(host, gateway, Query(ncm), 1, MatchResultCount);
    if searchResult.Err? {
      return None;
    }
    if |searchResult.value.data| == 0 {
      return None;
    }
    var bestMatch := FindBestMatch(ncm, searchResult.value.data);
    if bestMatch.Some? {
      r := Some(Merge(ncm, bestMatch.value));
    } else {
      r := None;
    }
  }

  /**
   * A merged result takes id, title, artist, album and duration from one
   * library item the search returned for `ncm`, whose title matches and
   * whose artist or duration matches; its artwork comes from the NCM
   * track and it is tagged `emby_ncm_artwork`.  A search that throws gives
   * no result.
   */
  lemma MatchProvenance(host: string, gateway: Gateway, ncm: MusicItem)
    ensures Candidates(host, gateway, ncm).None? ==> MatchTrack(host, gateway, ncm).None?
    ensures MatchTrack(host, gateway, ncm).Some? ==>
      var m := MatchTrack(host, gateway, ncm).value;
      var cands := Candidates(host, gateway, ncm).value;
      && Candidates(host, gateway, ncm).Some?
      && m.source == SourceEmbyNcmArtwork
      && m.artwork == ncm.artwork
      && exists c :: c in cands
           && TitleMatch(ncm, c) && (ArtistMatch(ncm, c) || DurationMatch(ncm, c))
           && m.id == c.id && m.title == c.title && m.artist == c.artist
           && m.album == c.album && m.duration == c.duration
  {
    var cs := Candidates(host, gateway, ncm);
    if cs.Some? {
      ChosenMatchesTitle(ncm, cs.value);
    }
  }
}
