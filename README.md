# Emby plugin for MusicFree: NCM playlist import, modelled in Dafny

This project models the decision-making core of `emby.js`, a MusicFree plugin that plays music from an Emby server. Its main feature imports a NetEase Cloud Music (NCM) playlist. The plugin resolves the playlist reference the user typed, lists the playlist's track ids and fetches their details in batches of 200. It then searches the Emby library for every track, five searches at a time. It scores the (at most five) candidates of each search and keeps the tracks that found a match, merged with the NCM artwork.

Modules (one file each):

- `Common` (`common.dfy`): `Option`/`Result`, ASCII lower-casing, `join`, decimal spelling of numbers, and `Math.round(x / d)` on naturals.
- `Items` (`items.dfy`): the music item the player sees, the Emby and NCM records, `getEmbyArtworkUrl`, `formatEmbyMusicItem` and `formatNcmMusicItem`.
- `EmbyApi` (`emby_api.dfy`): host normalisation in `ensureEmbyLogin`, the pagination arithmetic, and `searchMusic` over an abstract gateway.
- `Playback` (`playback.dfy`): the guards of `getMediaSourceApi` and `getMusicInfoApi`.
- `Matching` (`matching.dfy`): the scoring loop of `findAndMergeNcmTrackOnEmby` and the merge.
  - The loop is proved equal to a declarative rule: the earliest candidate of the highest non-zero tier. Tier 3 is title, artist and duration matching; tier 2 is title and artist; tier 1 is title and duration.
  - The rule is also proved equal to a recursive reference definition.
- `Batching` (`batching.dfy`): the 200-id batches and the detail-fetch loop.
- `Resolver` (`resolver.dfy`): a hand-written recogniser for the one regular expression of `importNcmSheet`. It covers the leftmost-match search, alternative order, greedy digit runs, unescaped dots and ECMAScript `\s`.
- `Pipeline` (`pipeline.dfy`): `getNcmPlaylistTrackIds`, `processNcmPlaylistImport` with its batches-of-five matching loop, and `importNcmSheet`.

The NCM endpoints and the Emby items endpoint are function-typed parameters: `Upstream` and `Gateway`. A request that throws is a distinguished answer such as `ApiFailed` or `DetailsFailed`. The session host and token are plain parameters.

A JavaScript value that is missing or falsy is modelled by the corresponding empty value:

- `""` for strings;
- `None` for optional values;
- `0` for `RunTimeTicks` and `dt`.

The artist separators differ: `formatNcmMusicItem` joins artists with `/` and `formatEmbyMusicItem` with `, `. So a track with two or more artists never has its artist matched against the same artists in the library (`Matching.MultiArtistNeverMatches`). Such a track can still match on title and duration.

The regular expression's dots before `com` are unescaped, and the expression has no `u` flag. So any one UTF-16 code unit other than a line terminator stands in for them (`Resolver.ShortLinkLooseDotExample`). A character outside the Basic Multilingual Plane is two code units, so it cannot stand in for one dot (`Resolver.ShortLinkNotAcrossPair`).

The matching loop appends the non-null results of each batch of five in submission order, because `Promise.all` keeps order. The import therefore returns its matches in playlist order, and the model follows the code in this. A looser reading would promise only "some order", and would treat the ids as a set rather than a sequence.

## Model

| member | source | states |
|---|---|---|
| Common.NatToString | emby.js:191 | `String(n)` of a track id is a non-empty digit string without a leading zero |
| Common.NatToStringRoundTrip | emby.js:191 | reading the decimal spelling back gives the id |
| Common.RoundDiv | emby.js:196 | the result is `x / d` rounded to the nearest integer, halves up (`Math.round` on non-negative values) |
| Common.JoinLengthGrows | emby.js:144 | joining with a separator one character longer adds one character per gap |
| Items.ArtworkUrl | emby.js:125-135 | a URL exists iff item id, image tag and host are all present, and it starts with `host/Items/<id>/Images/<type>?tag=<tag>&` |
| Items.FormatEmbyMusicItem | emby.js:137-150 | id kept and `_source` is `emby`. Title is the name, else `未知歌曲`; artist is the `", "`-joined artists, else `未知艺术家`; album is the album, else `未知专辑`. Artwork is `getEmbyArtworkUrl` of the item id with the primary tag, else the album's primary tag, at 600x600, so it exists iff the host, the id and one of the tags exist. Duration exists iff ticks > 0, and is ticks / 10^7 rounded to nearest |
| Items.FormatNcmMusicItem | emby.js:186-200 | `_source` is `ncm-import`. `_ncmId` is `NatToString` of the song id, its canonical decimal spelling, and `id` is that spelling prefixed with `ncm-tmp-`. Title is the name, else `未知歌曲`. Artist is the `/`-joined names of `ar` (else `artists`) when that list is non-empty, else `未知艺术家`. Album is the name of `al` (else `album`) when non-empty, else `未知专辑`. Artwork is the picUrl of `al`, else of `album`. Duration exists iff dt > 0, and is dt / 1000 rounded to nearest |
| EmbyApi.StripTrailingSlashes | emby.js:81 | the result is a prefix of the input, ends in no slash, and only slashes were removed |
| EmbyApi.StripTrailingSlashesUnique | emby.js:81 | any prefix that ends in no slash and is followed only by slashes is the stripped result |
| EmbyApi.NormaliseHost | emby.js:77-81 | the normalised host never ends with `/` |
| EmbyApi.NormaliseHostWithScheme | emby.js:77-81 | an address starting with `http://` or `https://` only loses its trailing slashes |
| EmbyApi.NormaliseHostWithoutScheme | emby.js:77-81 | any other address (not all slashes) gets `http://` prepended to its slash-stripped form |
| EmbyApi.LoginHost | emby.js:72-81 | fails iff url, username or password is empty, and otherwise yields the normalised host |
| EmbyApi.StartIndex | emby.js:203 | `startIndex` is one page short of `page * count`, and is non-negative from page 1 on |
| EmbyApi.IsEnd | emby.js:220 | with a total, the end is reached iff `startIndex` plus the number returned reaches it; a missing total counts as 0, so any non-negative start is the end |
| EmbyApi.IsEndIffNoNextPage | emby.js:202-223 | with `startIndex = (page-1)*count`, and the server returning the page's slice of a list of `total` items, `isEnd` holds iff the next page would start at or past `total` |
| EmbyApi.SearchMusic | emby.js:202-223 | the search fails iff the request fails; otherwise the data is each returned item formatted by `formatEmbyMusicItem`, in order, missing `Items` count as none, and `isEnd` is `IsEnd` of `startIndex`, the number returned and `TotalRecordCount` |
| Playback.MediaSource | emby.js:450-459 | only items tagged `emby` or `emby_ncm_artwork` get a stream, and only after a successful login. The URL starts with `host/Audio/<id>/stream?` |
| Playback.NcmItemsHaveNoStream | emby.js:450-453 | an item built by `formatNcmMusicItem` is refused a stream |
| Playback.EmbyItemsStream | emby.js:450-459 | an item built by `formatEmbyMusicItem` streams from its own id once logged in |
| Playback.CoverParam | emby.js:484-489 | an artist or album is sent iff it is non-empty and its lower-cased form is not a placeholder |
| Playback.GetMusicInfo | emby.js:462-497 | the first three branches, in order, keep the artwork: `emby_ncm_artwork`, then an `mf-` cache key, then NCM-sourced. Otherwise an empty title gives null; anything else gives a cover lookup by title, sending the item's own artist and album, each only when it is non-empty and not a placeholder |
| Matching.FindBestMatch | emby.js:546-583 | the loop over candidates, with its running `bestMatch`/`bestMatchScore` and the `break`, yields the earliest candidate of the highest non-zero tier, or null; this equals the reference `BestMatch` |
| Matching.BestMatchIsBest | emby.js:546-583 | the recursive reference definition satisfies the earliest-of-highest-tier rule |
| Matching.BestMatchUnique | emby.js:546-583 | the earliest-of-highest-tier rule determines its outcome uniquely |
| Matching.ChosenMatchesTitle | emby.js:573-583 | a chosen candidate is one of the candidates; its title matches, and its artist or its duration does |
| Matching.NoMatchIffNoTier | emby.js:541-583 | the result is null iff no candidate matches title with artist or duration, in particular with no candidates |
| Matching.FirstPerfectWins | emby.js:568-572 | the first perfect (title+artist+duration) candidate is the result, whatever candidates follow it |
| Matching.HigherTierPrevails | emby.js:573-582 | a candidate is never chosen over one of a higher tier, so title+duration never displaces title+artist |
| Matching.FirstWithinTierWins | emby.js:573-582 | within one tier a later candidate never displaces an earlier one |
| Matching.MultiArtistNeverMatches | emby.js:552 | a track with two or more artists never gets an artist match against an Emby item listing the same artists, because the two joins differ |
| Matching.FindAndMergeNcmTrackOnEmby | emby.js:534-604 | the result is the best candidate of the search for `"<title> <artist>"` (5 results) merged with the NCM artwork and tagged `emby_ncm_artwork`; a failed search or no candidates gives null |
| Matching.MatchProvenance | emby.js:585-603 | a merged result takes id, title, artist, album and duration from a returned candidate whose title and whose artist or duration match, and its artwork from the NCM track; a thrown search gives null |
| Matching.Merge | emby.js:585-595 | the merged item keeps the library item's id, title, artist, album and duration, takes the NCM artwork, is tagged `emby_ncm_artwork` and has no `_ncmId` |
| Matching.Query | emby.js:535 | the search text is the title, one space, then the artist |
| Matching.MatchTrack | emby.js:534-604 | null when the search throws; a track iff the search succeeds and some candidate reaches a non-zero tier; that track is the best candidate merged with the NCM track |
| Batching.ChunksFlatten | emby.js:612-617 | concatenating the 200-id batches gives back the track ids in order |
| Batching.ChunkSizes | emby.js:612-617 | every batch is non-empty with at most 200 ids, and all but the last hold exactly 200 |
| Batching.ChunkCount | emby.js:612-617 | there are ceil(n / 200) batches |
| Batching.ChunkAt | emby.js:613-614 | batch `i` is `trackIds.slice(200 i, 200 i + 200)` |
| Batching.FourHundredFiftyIds | emby.js:612-617 | 450 ids make three requests, of 200, 200 and 50 ids |
| Batching.Chunks | emby.js:612-617 | every batch holds between 1 and 200 ids, and there are no batches iff there are no ids |
| Batching.FormatAll | emby.js:508 | one formatted item per song, the `k`-th being `formatNcmMusicItem` of the `k`-th song |
| Batching.TrackDetails | emby.js:499-516 | no ids, a failed request, or an empty or missing `songs` give `[]`; with ids, a successful request and a `songs` list, the result is that list formatted by `formatNcmMusicItem`, in order |
| Batching.FailedBatchDropped | emby.js:611-617 | a failing batch contributes nothing, and the batches around it keep their tracks and order |
| Batching.FetchNcmTracks | emby.js:611-617 | the batch loop yields the concatenation, in batch order, of the details of every 200-id batch |
| Resolver.DigitRun | emby.js:653 | the greedy digit run: all digits, not followed by a digit |
| Resolver.BlankRun | emby.js:653 | the greedy `\s*` run: all blanks, not followed by a blank |
| Resolver.BareId | emby.js:653 | a bare match is the digit run after the leading blanks, with only blanks before and after it |
| Resolver.MatchAt | emby.js:653 | nothing matches at a position iff none of the three link alternatives does and, at position 0, the bare alternative does not either; a match names one alternative from 1 to 4, with a non-empty capture, and the bare alternative only at position 0 |
| Resolver.FirstMatch | emby.js:653 | a match names one alternative from 1 to 4 and captures a non-empty id |
| Resolver.ExtractId | emby.js:657 | the id is the defined, non-empty capture of the match, and every such capture is taken |
| Resolver.Resolve | emby.js:653-657 | fails, as unrecognised, iff no position matches; otherwise yields the capture of the leftmost match |
| Resolver.FirstSomeIsLeftmost | emby.js:653 | the position search finds the leftmost position where something matches, and nothing iff nothing matches anywhere |
| Resolver.FirstMatchIsLeftmost | emby.js:653 | `match` reports the match at the leftmost position where some alternative matches |
| Resolver.ExtractIdOfMatch | emby.js:657 | the chain over groups 1 to 4 picks the one defined, non-empty group |
| Resolver.ResolvedIdIsDigits | emby.js:653-660 | whenever the pattern matches, the id is a non-empty run of digits taken from the input, so the "no id" error never fires |
| Resolver.NoDigitsUnrecognized | emby.js:653-656 | an input without digits is rejected as unrecognised |
| Resolver.NotALink | emby.js:653-656 | `"not a link"` is rejected as unrecognised |
| Resolver.BareIdResolves | emby.js:653-657 | a bare digit string padded by blanks resolves to exactly its digits |
| Resolver.ShortLinkResolves | emby.js:653-657 | `https://y.music.163?com/m/playlist?id=<digits>` resolves to the digits, with any single code unit but a line terminator as `?` and anything after the digits |
| Resolver.ShortLinkNotAcrossPair | emby.js:653-655 | a character outside the Basic Multilingual Plane in place of the loose dot defeats the short-link alternative, since `.` without the `u` flag takes one code unit |
| Resolver.PathLinkResolvesHttps | emby.js:653-657 | `https://music.163.com/playlist/<digits>/...` resolves to the digits |
| Resolver.PathLinkResolvesHttp | emby.js:653-657 | `http://music.163.com/playlist/<digits>/...` resolves to the digits |
| Resolver.CanonicalHashResolvesHttps | emby.js:653-657 | `https://music.163.com/#/playlist?id=<digits>` resolves to the digits |
| Resolver.CanonicalResolvesHttps | emby.js:653-657 | `https://music.163.com/playlist?id=<digits>` resolves to the digits |
| Resolver.CanonicalHashResolvesHttp | emby.js:653-657 | `http://music.163.com/#/playlist?id=<digits>` resolves to the digits |
| Resolver.CanonicalResolvesHttp | emby.js:653-657 | `http://music.163.com/playlist?id=<digits>` resolves to the digits |
| Resolver.PaddedIdExample | emby.js:653-657 | `"  987  "` resolves to `"987"` |
| Resolver.ShortLinkExample | emby.js:653-657 | `https://y.music.163.com/m/playlist?id=12345` resolves to `"12345"` |
| Resolver.ShortLinkLooseDotExample | emby.js:653-657 | `https://y.music.163Xcom/m/playlist?id=5` resolves to `"5"` (unescaped dot) |
| Resolver.CanonicalLinkExample | emby.js:653-657 | `https://music.163.com/#/playlist?id=2463&userid=7` resolves to `"2463"` |
| Pipeline.PlaylistTrackIds | emby.js:518-532 | fails iff the request fails or `playlist.trackIds` is missing; an empty list is a success |
| Pipeline.Somes | emby.js:640-645 | keeping the truthy results never lengthens the list |
| Pipeline.SomesMembership | emby.js:640-645 | a track is kept iff some search resolved to it |
| Pipeline.SomesAllPresent | emby.js:640-645 | nothing is dropped iff every search matched, and then each result keeps its position |
| Pipeline.Settle | emby.js:639-641 | the settled batch's truthy results are appended in submission order |
| Pipeline.MatchAll | emby.js:619-647 | batches of at most five searches (an invariant), flushed at five and once at the end, yield exactly the truthy results of matching every track in turn, in track order |
| Pipeline.ProcessNcmPlaylistImport | emby.js:606-650 | the import is an error iff the playlist listing fails. An empty id list gives `[]`. Otherwise the result is the truthy matches of the tracks fetched in 200-id batches |
| Pipeline.PlaylistImport | emby.js:606-650 | an error, `PlaylistUnavailable`, iff the track-id listing fails; an empty listing imports nothing; otherwise the truthy matches of the fetched tracks |
| Pipeline.ImportNcmSheet | emby.js:652-662 | an unrecognised reference and a missing id are errors; otherwise the playlist named by the extracted id is imported |
| Pipeline.SheetImport | emby.js:652-662 | never the "no id" error; unrecognised iff the reference does not resolve; otherwise the playlist import of the resolved id |
| Pipeline.ImportedTracksAreMerged | emby.js:606-650 | every imported track is the merge of a fetched NCM track with a library item, tagged `emby_ncm_artwork`, and streamable |
| Pipeline.ImportSize | emby.js:619-647 | the import holds at most one track per fetched NCM track, and exactly one each iff every track matched |
| Pipeline.AllMatchedInOrder | emby.js:619-647 | when every track matches, the import is the merged tracks in playlist order |
| Pipeline.DetailsDownImportsNothing | emby.js:606-617 | when every detail request fails, the import succeeds and is empty |
| Pipeline.SheetImportErrors | emby.js:652-661 | the import throws only for an unrecognised reference, or for the errors of the playlist import: never "no id". An unrecognised reference fails before any request. A recognised one imports a digit id taken from the input |
| Pipeline.BareIdImports | emby.js:652-662 | a bare id, blanks around it allowed, imports that playlist |

## Left out

- HTTP and sessions:
  - All HTTP transport is left out: axios, `embyApiGet` with its 401 re-login retry, `loginEmby`, request headers and timeouts. Requests are function parameters, and a thrown request is one distinguished answer.
  - The session globals `embyAccessToken`, `embyUserId` and `embyHost` are not modelled; host and token are parameters.
  - The random `DeviceId` is not modelled.
- EmbyApi.SearchMusic: takes the page size as an argument. The default `count = pageSize` (50) is not modelled, because the import calls it with 5 (emby.js:539); only the exported `search`, which is not part of this model, relies on the default (emby.js:684).
- EmbyApi.LoginHost: models the settings check and host normalisation of `ensureEmbyLogin`. It does not model the early return for an existing session or the login request.
- Playback.MediaSource: a failed login is `None` as the exported `getMediaSource` returns it. The `quality` argument, which the source ignores, is not modelled.
- Playback.GetMusicInfo: returns the cover lookup's parameters rather than the URL. `URLSearchParams` percent-encoding is a foreign library; the source's catch around it is not modelled.
- Matching.TitleMatch, Matching.ArtistMatch, Playback.CoverParam and Playback.GetMusicInfo: lower-case ASCII letters only, not with the full Unicode `toLowerCase`. A value whose full lower-casing differs, such as one containing the Kelvin sign U+212A, may compare differently in the source.
- Concurrency and logging:
  - Concurrency is modelled only as its batch semantics: five searches, then a wait for all five. Interleavings are not modelled.
  - The model assumes one stable, logged-in session for the whole import: every search sees the same host, user and token. In the source the searches share the session globals. `searchMusic` reads `embyUserId` (emby.js:205, emby.js:217) before `embyApiGet` logs in (emby.js:87), so a first search without a session sends a null user. A 401 answer nulls the token and user (emby.js:105-106) and logs in again (emby.js:45-47, emby.js:56-58), and a sibling search running meanwhile can find no auth header and throw (emby.js:90-91). Such a search then yields null for its track.
  - The `completedCount` progress counter and all console logging are not modelled.
  - `findAndMergeNcmTrackOnEmby` never rejects, so the per-search `.catch` cannot fire and is not modelled.
- Pipeline.MatchAll: states its output completely. The bound of at most five pending searches is a loop invariant of the method and not part of its postcondition, because it concerns a local list.
- Items and durations:
  - Durations are integer rounding of non-negative naturals; floating-point division is left out.
  - Emby ids are strings; `String(embyItem.Id)` on other types is left out.
  - NCM ids are naturals.
- Not part of this model, being HTTP glue or view-model formatting outside the import:
  - the other formatters and searches (`formatEmbyAlbumItem`, `formatEmbyArtistItem`, `formatEmbyPlaylistItem`, `searchAlbum`, `searchArtist`, `searchSheet`);
  - the album and sheet pages;
  - the lyric fetch;
  - the exported wrappers other than `getMediaSource`.
- Error message texts are replaced by the `ImportError`, `ApiError` and `SettingsError` constructors.
