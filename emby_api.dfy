/**
 * The parts of the Emby API layer with decisions in them: normalising the
 * configured server address, the pagination arithmetic of the search
 * calls, and `searchMusic`.  The HTTP request itself is a parameter: a
 * gateway that answers an items query, or fails.
 */
module EmbyApi {
  import opened Common
  import opened Items

  // ---------------------------------------------------------------------------
  // Server address

  predicate EndsWithSlash(s: string) {
    |s| > 0 && s[|s| - 1] == '/'
  }

  /** `s.replace(/\/+$/, "")`: drop every trailing slash. */
  function StripTrailingSlashes(s: string): (r: string)
    ensures r <= s
    ensures !EndsWithSlash(r)
    ensures forall i :: |r| <= i < |s| ==> s[i] == '/'
    decreases |s|
  {
    if EndsWithSlash(s) then StripTrailingSlashes(s[..|s| - 1]) else s
  }

  /** The address `ensureEmbyLogin` logs in to: an `http://` scheme unless one is given, no trailing slash. */
  function NormaliseHost(url: string): (r: string)
    ensures !EndsWithSlash(r)
  {
    var withScheme := if HasScheme(url) then url else "http://" + url;
    StripTrailingSlashes(withScheme)
  }

  datatype SettingsError = MissingSettings

  /** The settings check of `ensureEmbyLogin`: all three settings must be non-empty. */
  function LoginHost(url: string, username: string, password: string): (r: Result<string, SettingsError>)
    ensures r.Err? <==> url == "" || username == "" || password == ""
    ensures r.Ok? ==> r.value == NormaliseHost(url) && !EndsWithSlash(r.value)
  {
    if url == "" || username == "" || password == "" then Err(MissingSettings)
    else Ok(NormaliseHost(url))
  }

  /** Any two decompositions of `s` into a slash-free-ended part and trailing slashes agree. */
  lemma StripTrailingSlashesUnique(s: string, r: string)
    requires r <= s && !EndsWithSlash(r)
    requires forall i :: |r| <= i < |s| ==> s[i] == '/'
    ensures r == StripTrailingSlashes(s)
  {
  }

  predicate HasScheme(url: string) {
    StartsWith(url, "http://") || StartsWith(url, "https://")
  }

  /** An address that already names its scheme only loses its trailing slashes. */
  lemma NormaliseHostWithScheme(url: string)
    requires HasScheme(url)
    ensures NormaliseHost(url) == StripTrailingSlashes(url)
  {
  }

  /**
   * Any other address gains `http://` in front; if it is not made of
   * slashes alone, all of it up to its trailing slashes is kept.
   */
  lemma NormaliseHostWithoutScheme(url: string, k: nat)
    requires !HasScheme(url)
    requires k < |url| && url[k] != '/'
    ensures NormaliseHost(url) == "http://" + StripTrailingSlashes(url)
  {
    var u := StripTrailingSlashes(url);
    var s := "http://" + url;
    var r := "http://" + u;
    assert k < |u|;
    assert r[|r| - 1] == u[|u| - 1];
    assert url[..|u|] == u;
    assert s[..|r|] == r;
    forall i | |r| <= i < |s|
      ensures s[i] == '/'
    {
      assert s[i] == url[i - 7];
    }
    StripTrailingSlashesUnique(s, r);
  }

  // ---------------------------------------------------------------------------
  // Pagination

  /** `startIndex = (page - 1) * count`. */
  function StartIndex(page: int, count: int): (r: int)
    ensures r + count == page * count
    ensures page >= 1 && count >= 0 ==> r >= 0
  {
    (page - 1) * count
  }

  /** `isEnd`: the page reaches the reported total; a missing total counts as 0. */
  function IsEnd(startIndex: int, returned: nat, total: Option<int>): (r: bool)
    ensures total.Some? ==> (r <==> startIndex + returned >= total.value)
    ensures total.None? && startIndex >= 0 ==> r
  {
    startIndex + returned >= total.GetOr(0)
  }

  /**
   * When the server answers with the slice [startIndex, startIndex + count)
   * of a list of `total` items, `isEnd` holds exactly when no item lies
   * beyond this page, that is when the next page would start at or past
   * the total.
   */
  lemma IsEndIffNoNextPage(page: int, count: nat, total: nat, returned: nat)
    requires page >= 1
    requires returned == if StartIndex(page, count) >= total then 0 else Min(count, total - StartIndex(page, count))
    ensures IsEnd(StartIndex(page, count), returned, Some(total)) <==> StartIndex(page + 1, count) >= total
  {
    assert StartIndex(page + 1, count) == StartIndex(page, count) + count;
  }

  // ---------------------------------------------------------------------------
  // searchMusic

  /** The query `searchMusic` sends: search term, start index and page size. */
  datatype ItemsQuery = ItemsQuery(searchTerm: string, startIndex: int, limit: int)

  /** What the `/Users/{id}/Items` request yields: a failure (thrown error), or the body's `Items` and `TotalRecordCount`. */
  datatype ApiResponse = ApiFailed | ApiOk(items: Option<seq<EmbyItem>>, totalRecordCount: Option<int>)

  /** The authenticated Emby items endpoint. */
  type Gateway = ItemsQuery -> ApiResponse

  datatype SearchPage = SearchPage(isEnd: bool, data: seq<MusicItem>)

  datatype ApiError = RequestFailed

  /** `searchMusic(query, page, count)`: one page of formatted audio items. */
  function SearchMusic(host: string, gateway: Gateway, query: string, page: int, count: int): (r: Result<SearchPage, ApiError>)
    ensures r.Err? <==> gateway(ItemsQuery(query, StartIndex(page, count), count)).ApiFailed?
    ensures r.Ok? ==>
      var items := gateway(ItemsQuery(query, StartIndex(page, count), count)).items.GetOr([]);
      && |r.value.data| == |items|
      && r.value.isEnd == IsEnd(StartIndex(page, count), |items|, gateway(ItemsQuery(query, StartIndex(page, count), count)).totalRecordCount)
      && (forall k :: 0 <= k < |items| ==> r.value.data[k] == FormatEmbyMusicItem(host, items[k]))
  {
    var startIndex := StartIndex(page, count);
    match gateway(ItemsQuery(query, startIndex, count))
    case ApiFailed => Err(RequestFailed)
    case ApiOk(items, total) =>
      var songs := items.GetOr([]);
      Ok(SearchPage(
        IsEnd(startIndex, |songs|, total),
        seq(|songs|, k requires 0 <= k < |songs| => FormatEmbyMusicItem(host, songs[k]))))
  }
}
