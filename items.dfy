/**
 * The music items the plugin hands to the player, and the two formatters
 * that build them: one from an Emby library item, one from a NetEase Cloud
 * Music (NCM) song record.  A JavaScript value that is missing, `null` or
 * falsy is modelled as the empty string, as `None`, or as 0.
 */
module Items {
  import opened Common

  const UnknownTitle := "未知歌曲"
  const UnknownArtist := "未知艺术家"
  const UnknownAlbum := "未知专辑"

  /** Values of the `_source` tag. */
  const SourceEmby := "emby"
  const SourceNcmImport := "ncm-import"
  const SourceNcm := "ncm"
  const SourceEmbyNcmArtwork := "emby_ncm_artwork"

  const NcmIdPrefix := "ncm-tmp-"
  const TicksPerSecond := 10000000
  const MillisPerSecond := 1000
  const ArtworkSize := 600

  /** A music item as the player sees it. */
  datatype MusicItem = MusicItem(
    id: string,
    title: string,
    artist: string,
    album: string,
    artwork: Option<string>,
    duration: Option<int>,
    source: string,
    ncmId: Option<string>)

  /** An `Audio` item of the Emby library. */
  datatype EmbyItem = EmbyItem(
    id: string,
    name: string,
    artists: seq<string>,
    album: string,
    primaryImageTag: string,
    albumPrimaryImageTag: string,
    runTimeTicks: nat)

  datatype NcmArtist = NcmArtist(name: string)
  datatype NcmAlbum = NcmAlbum(name: string, picUrl: Option<string>)

  /** A song record of the NCM detail endpoint; `al`/`album` and `ar`/`artists` are alternative spellings. */
  datatype NcmSong = NcmSong(
    id: nat,
    name: string,
    al: Option<NcmAlbum>,
    album: Option<NcmAlbum>,
    ar: Option<seq<NcmArtist>>,
    artists: Option<seq<NcmArtist>>,
    dt: nat)

  /** `s || fallback` on strings. */
  function OrDefault(s: string, fallback: string): string {
    if s == "" then fallback else s
  }

  /** `getEmbyArtworkUrl(itemId, imageTag, kind, maxWidth, maxHeight)` with the session host passed in. */
  function ArtworkUrl(host: string, itemId: string, imageTag: string, kind: string, maxWidth: nat, maxHeight: nat): (r: Option<string>)
    ensures r.Some? <==> itemId != "" && imageTag != "" && host != ""
    ensures r.Some? ==> StartsWith(r.value, host + "/Items/" + itemId + "/Images/" + kind + "?tag=" + imageTag + "&")
  {
    if itemId == "" || imageTag == "" then None
    else if host == "" then None
    else
      var prefix := host + "/Items/" + itemId + "/Images/" + kind + "?tag=" + imageTag + "&";
      var url := prefix + "maxWidth=" + NatToString(maxWidth) + "&maxHeight=" + NatToString(maxHeight) + "&quality=90";
      assert url[..|prefix|] == prefix;
      Some(url)
  }

  /** `formatEmbyMusicItem`. */
  function FormatEmbyMusicItem(host: string, item: EmbyItem): (r: MusicItem)
    ensures r.id == item.id && r.source == SourceEmby && r.ncmId == None
    ensures r.title != "" && r.artist != "" && r.album != ""
    ensures r.title == (if item.name != "" then item.name else UnknownTitle)
    ensures r.artist == (if Join(item.artists, ", ") != "" then Join(item.artists, ", ") else UnknownArtist)
    ensures r.album == (if item.album != "" then item.album else UnknownAlbum)
    ensures r.artwork.Some? <==> host != "" && item.id != "" && (item.primaryImageTag != "" || item.albumPrimaryImageTag != "")
    ensures r.artwork == ArtworkUrl(host, item.id, if item.primaryImageTag != "" then item.primaryImageTag else item.albumPrimaryImageTag, "Primary", ArtworkSize, ArtworkSize)
    ensures r.duration.Some? <==> item.runTimeTicks > 0
    ensures r.duration.Some? ==> r.duration.value >= 0 && RoundsToNearest(item.runTimeTicks, TicksPerSecond, r.duration.value)
  {
    var tag := OrDefault(item.primaryImageTag, item.albumPrimaryImageTag);
    MusicItem(
      item.id,
      OrDefault(item.name, UnknownTitle),
      OrDefault(Join(item.artists, ", "), UnknownArtist),
      OrDefault(item.album, UnknownAlbum),
      ArtworkUrl(host, item.id, tag, "Primary", ArtworkSize, ArtworkSize),
      if item.runTimeTicks > 0 then Some(RoundDiv(item.runTimeTicks, TicksPerSecond)) else None,
      SourceEmby,
      None)
  }

  function ArtistNames(xs: seq<NcmArtist>): seq<string> {
    seq(|xs|, i requires 0 <= i < |xs| => xs[i].name)
  }

  /** The album record the formatter reads: `al || album`. */
  function SongAlbum(song: NcmSong): Option<NcmAlbum> {
    if song.al.Some? then song.al else song.album
  }

  /** The artist list the formatter reads: `ar || artists`. */
  function SongArtists(song: NcmSong): Option<seq<NcmArtist>> {
    if song.ar.Some? then song.ar else song.artists
  }

  /** `formatNcmMusicItem`. */
  function FormatNcmMusicItem(song: NcmSong): (r: MusicItem)
    ensures r.source == SourceNcmImport
    ensures r.ncmId == Some(NatToString(song.id))
    ensures AllDigits(r.ncmId.value) && DecimalValue(r.ncmId.value) == song.id
    ensures r.id == NcmIdPrefix + r.ncmId.value
    ensures r.title != "" && r.album != ""
    ensures r.title == (if song.name != "" then song.name else UnknownTitle)
    ensures r.artist == (if SongArtists(song).Some? && SongArtists(song).value != [] then Join(ArtistNames(SongArtists(song).value), "/") else UnknownArtist)
    ensures r.album == (if SongAlbum(song).Some? && SongAlbum(song).value.name != "" then SongAlbum(song).value.name else UnknownAlbum)
    ensures r.artwork == (if SongAlbum(song).Some? then SongAlbum(song).value.picUrl else None)
    ensures r.duration.Some? <==> song.dt > 0
    ensures r.duration.Some? ==> r.duration.value >= 0 && RoundsToNearest(song.dt, MillisPerSecond, r.duration.value)
  {
    var album := SongAlbum(song);
    var artists := SongArtists(song);
    var ncmId := NatToString(song.id);
    NatToStringRoundTrip(song.id);
    MusicItem(
      NcmIdPrefix + ncmId,
      OrDefault(song.name, UnknownTitle),
      if artists.Some? && |artists.value| > 0 then Join(ArtistNames(artists.value), "/") else UnknownArtist,
      if album.Some? then OrDefault(album.value.name, UnknownAlbum) else UnknownAlbum,
      if album.Some? then album.value.picUrl else None,
      if song.dt > 0 then Some(RoundDiv(song.dt, MillisPerSecond)) else None,
      SourceNcmImport,
      Some(ncmId))
  }
}
