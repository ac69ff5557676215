/**
 * The two guards the player consults before playing or decorating an
 * item: `getMediaSourceApi` (only Emby-backed items have a stream) and
 * `getMusicInfoApi` (which artwork to keep or which cover to look up).
 */
module Playback {
  import opened Common
  import opened Items

  /** A logged-in session: the normalised host and the access token. */
  datatype Session = Session(host: string, token: string)

  /** Items that `getMediaSourceApi` serves a stream for. */
  predicate Playable(item: MusicItem) {
    item.source == SourceEmby || item.source == SourceEmbyNcmArtwork
  }

  function StreamUrl(session: Session, id: string): string {
    session.host + "/Audio/" + id + "/stream?static=true&api_key=" + session.token
  }

  /**
   * `getMediaSourceApi` as the exported `getMediaSource` returns it:
   * the source gate comes first; a login that fails (`None`) surfaces
   * as `null`.
   */
  function MediaSource(item: MusicItem, login: Option<Session>): (r: Option<string>)
    ensures !Playable(item) ==> r == None
    ensures r.Some? <==> Playable(item) && login.Some?
    ensures r.Some? ==> StartsWith(r.value, login.value.host + "/Audio/" + item.id + "/stream?")
  {
    if item.source != SourceEmby && item.source != SourceEmbyNcmArtwork then None
    else if login.None? then None
    else
      var url := StreamUrl(login.value, item.id);
      var prefix := login.value.host + "/Audio/" + item.id + "/stream?";
      assert url[..|prefix|] == prefix;
      Some(url)
  }

  /** What `getMusicInfoApi` answers: the artwork to keep, or the parameters of a cover lookup. */
  datatype MusicInfo =
    | KeepArtwork(artwork: Option<string>)
    | CoverLookup(title: string, artist: Option<string>, album: Option<string>)

  predicate IsCacheKey(artwork: Option<string>) {
    artwork.Some? && StartsWith(artwork.value, "mf-")
  }

  predicate IsNcmSourced(item: MusicItem) {
    item.source == SourceNcmImport || item.source == SourceNcm
  }

  /** An artist or album name worth sending to the cover service. */
  function CoverParam(s: string, placeholders: seq<string>): (r: Option<string>)
    ensures r.Some? <==> s != "" && Lower(s) !in placeholders
    ensures r.Some? ==> r.value == s
  {
    if s != "" && Lower(s) !in placeholders then Some(s) else None
  }

  /** `getMusicInfoApi`, its four branches in the source's order. */
  function GetMusicInfo(item: MusicItem): (r: Option<MusicInfo>)
    ensures item.source == SourceEmbyNcmArtwork ==> r == Some(KeepArtwork(item.artwork))
    ensures (item.source == SourceEmbyNcmArtwork || IsCacheKey(item.artwork) || IsNcmSourced(item))
      <==> r.Some? && r.value.KeepArtwork?
    ensures r.Some? && r.value.KeepArtwork? ==> r.value.artwork == item.artwork
    ensures r.None? <==> !(item.source == SourceEmbyNcmArtwork || IsCacheKey(item.artwork) || IsNcmSourced(item)) && item.title == ""
    ensures r.Some? && r.value.CoverLookup? ==>
      && r.value.title == item.title != ""
      && (r.value.artist.Some? <==> item.artist != "" && Lower(item.artist) !in ["unknown artist", "various artists"])
      && (r.value.album.Some? <==> item.album != "" && Lower(item.album) !in ["unknown album"])
      && (r.value.artist.Some? ==> r.value.artist.value == item.artist)
      && (r.value.album.Some? ==> r.value.album.value == item.album)
  {
    if item.source == SourceEmbyNcmArtwork then Some(KeepArtwork(item.artwork))
    else if IsCacheKey(item.artwork) then Some(KeepArtwork(item.artwork))
    else if IsNcmSourced(item) then Some(KeepArtwork(item.artwork))
    else if item.title == "" then None
    else Some(CoverLookup(
      item.title,
      CoverParam(item.artist, ["unknown artist", "various artists"]),
      CoverParam(item.album, ["unknown album"])))
  }

  /** Items built from NCM song records are never streamed. */
  lemma NcmItemsHaveNoStream(song: NcmSong, login: Option<Session>)
    ensures MediaSource(FormatNcmMusicItem(song), login) == None
  {
  }

  /** Items built from Emby library items stream from their own id once logged in. */
  lemma EmbyItemsStream(host: string, item: EmbyItem, session: Session)
    ensures MediaSource(FormatEmbyMusicItem(host, item), Some(session)) == Some(StreamUrl(session, item.id))
  {
  }
}
