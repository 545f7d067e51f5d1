/** The computations of the browser page (client/assets/index.js) that the
    server depends on or that decide what is shown: the pagination window
    and page slice of the search results, the video and subtitle filters of
    a file listing, the subtitle language taken from a file name, the stream
    URLs the player is given, and the choice of search service.  The page's
    module-level variables (settings, searchData, searchPage) are the fields
    of a Page object. */
module Client {
  import opened Wrappers
  import opened Text
  import opened Http
  import opened Settings
  import opened Sessions
  import opened Router
  import opened Search

  function Max(a: int, b: int): int { if a >= b then a else b }
  function Min(a: int, b: int): int { if a <= b then a else b }

  // ---------------------------------------------------------------- pagination

  /** searchPageSize */
  const PageSize: nat := 5

  /** Math.ceil(total / pageSize) */
  function TotalPages(total: nat, pageSize: nat): (n: nat)
    requires pageSize > 0
    ensures n * pageSize >= total
    ensures n > 0 ==> (n - 1) * pageSize < total
  {
    (total + pageSize - 1) / pageSize
  }

  /** A page button: its page number and whether it is the active one. */
  datatype Button = Button(page: int, active: bool)

  /** What generatePagination puts on the page. */
  datatype Pagination = Pagination(buttons: seq<Button>, prevDisabled: bool, nextDisabled: bool)

  /** The buttons from max(1, current - 2) to min(totalPages, current + 2). */
  function Window(current: int, totalPages: int): seq<Button> {
    var first := Max(1, current - 2);
    var last := Min(totalPages, current + 2);
    seq(if last >= first then last - first + 1 else 0, k => Button(first + k, first + k == current))
  }

  function PaginationOf(current: int, pageSize: nat, total: nat): Pagination
    requires pageSize > 0
  {
    var totalPages := TotalPages(total, pageSize);
    Pagination(Window(current, totalPages), current == 1, current == totalPages)
  }

  /** generatePagination: the button loop and the two arrows. */
  method GeneratePagination(currentPage: int, pageSize: nat, total: nat) returns (p: Pagination)
    requires pageSize > 0
    ensures p == PaginationOf(currentPage, pageSize, total)
  {
    var totalPages := TotalPages(total, pageSize);
    var startPage := Max(1, currentPage - 2);
    var endPage := Min(totalPages, currentPage + 2);
    var buttons: seq<Button> := [];
    var i := startPage;
    while i <= endPage
      invariant startPage <= i <= Max(startPage, endPage + 1)
      invariant |buttons| == i - startPage
      invariant forall k :: 0 <= k < |buttons| ==> buttons[k] == Button(startPage + k, startPage + k == currentPage)
    {
      buttons := buttons + [Button(i, i == currentPage)];
      i := i + 1;
    }
    p := Pagination(buttons, currentPage == 1, currentPage == totalPages);
  }

  /** Array.prototype.slice(start, end) on a sequence. */
  function SliceIndex(i: int, len: nat): (r: nat)
    ensures r <= len
  {
    if i < 0 then Max(len + i, 0) else Min(i, len)
  }

  function JsSlice<T>(s: seq<T>, start: int, end: int): (r: seq<T>)
    ensures |r| <= |s|
  {
    var from := SliceIndex(start, |s|);
    var to := SliceIndex(end, |s|);
    if from < to then s[from..to] else []
  }

  /** The rows of one page. */
  function PageRows<T>(data: seq<T>, page: int): seq<T> {
    var start := (page - 1) * PageSize;
    JsSlice(data, start, start + PageSize)
  }

  /** What updateSearchResults shows: nothing but the "no results" footer
      for an empty list, otherwise the rows of the current page and the
      pagination. */
  datatype View<T> = NoResults | Results(rows: seq<T>, pagination: Pagination)

  function ViewOf<T>(data: seq<T>, page: int): View<T> {
    if |data| == 0 then NoResults
    else Results(PageRows(data, page), PaginationOf(page, PageSize, |data|))
  }

  // ---------------------------------------------------------------- files

  const VideoExtensions: seq<string> := [".mp4", ".mkv", ".webm", ".avi"]
  const SubtitleExtensions: seq<string> := [".srt", ".vtt", ".sub"]

  /** name matches /\.(e1|e2|...)$/i: JavaScript's case-insensitive match
      of an ASCII pattern folds ASCII letters only. */
  predicate EndsWithExtension(name: string, exts: seq<string>) {
    exists k :: 0 <= k < |exts| && HasSuffix(ToLower(name), exts[k])
  }

  /** An extension as filepath.Ext can return it: a '.' followed by text
      without '.' or '/'. */
  predicate Dotted(e: string) {
    |e| > 1 && e[0] == '.' && '.' !in e[1..] && '/' !in e[1..]
  }

  predicate IsVideo(name: string) {
    EndsWithExtension(name, VideoExtensions)
  }

  predicate IsSubtitle(name: string) {
    EndsWithExtension(name, SubtitleExtensions)
  }

  /** files.filter(...), keeping listing order. */
  function Filter(entries: seq<FileEntry>, video: bool): (r: seq<FileEntry>)
    ensures forall e :: e in r <==> e in entries && (if video then IsVideo(e.name) else IsSubtitle(e.name))
    ensures |r| <= |entries|
    decreases |entries|
  {
    if |entries| == 0 then []
    else
      var front := Filter(entries[..|entries| - 1], video);
      var e := entries[|entries| - 1];
      assert forall x :: x in entries <==> x in entries[..|entries| - 1] || x == e by {
        assert entries == entries[..|entries| - 1] + [e];
      }
      if (if video then IsVideo(e.name) else IsSubtitle(e.name)) then front + [e] else front
  }

  predicate IsLetter(c: char) {
    'a' <= c <= 'z' || 'A' <= c <= 'Z'
  }

  /** The name ends in "." + k letters + "." + srt, vtt or sub (in any case). */
  predicate LanguageSuffix(name: string, k: nat) {
    var n := |name|;
    && n >= k + 5
    && name[n - k - 5] == '.'
    && (forall j :: n - k - 4 <= j < n - 4 ==> IsLetter(name[j]))
    && ToLower(name[n - 4..]) in SubtitleExtensions
  }

  /** The language of a subtitle file: the letters matched by
      /\.([a-z]{2,3})\.(srt|vtt|sub)$/i, "en" when there is no match. */
  function SubtitleLanguage(name: string): (lang: string)
    ensures lang == "en" || (2 <= |lang| <= 3 && forall j :: 0 <= j < |lang| ==> IsLetter(lang[j]))
    ensures !LanguageSuffix(name, 3) && !LanguageSuffix(name, 2) ==> lang == "en"
  {
    var n := |name|;
    if LanguageSuffix(name, 3) then name[n - 7..n - 4]
    else if LanguageSuffix(name, 2) then name[n - 6..n - 4]
    else "en"
  }

  // ---------------------------------------------------------------- stream URLs

  const TorrentPrefix: string := "/api/v1/torrent/"

  /** The path of file `index` of a session: the video source. */
  function StreamPath(sessionId: string, index: nat): string {
    TorrentPrefix + sessionId + "/stream/" + NatToString(index)
  }

  /** The path of a subtitle track; its query asks for WebVTT. */
  function SubtitlePath(sessionId: string, index: nat): string {
    StreamPath(sessionId, index) + ".vtt"
  }

  const SubtitleQuery: string := "?format=vtt"

  // ---------------------------------------------------------------- search

  /** The service a search is sent to: Jackett when Prowlarr lacks a host or
      a key and Jackett has both, Prowlarr otherwise. */
  function Endpoint(s: Settings): (p: Provider)
    ensures p == Jackett <==>
      (s.prowlarrHost == "" || s.prowlarrApiKey == "") && s.jackettHost != "" && s.jackettApiKey != ""
  {
    if (s.prowlarrHost == "" || s.prowlarrApiKey == "") && s.jackettHost != "" && s.jackettApiKey != ""
    then Jackett else Prowlarr
  }

  function EndpointPath(p: Provider): string {
    match p
    case Prowlarr => "/api/v1/prowlarr/search"
    case Jackett => "/api/v1/jackett/search"
  }

  // ---------------------------------------------------------------- page state

  class Page {
    var settings: Settings
    var searchData: seq<Processed>
    var searchPage: int

    /** The initial values of the module-level variables. */
    constructor ()
      ensures settings == Defaults && searchData == [] && searchPage == 1
    {
      settings := Defaults;
      searchData := [];
      searchPage := 1;
    }

    /** The search form's submit handler up to the request.  An empty query
        only shows an error toast: nothing is sent and nothing changes.
        Otherwise the old results are dropped, the first page selected, and
        the endpoint chosen. */
    method SubmitSearch(query: string) returns (apiUrl: Option<string>)
      modifies this
      ensures query == "" ==> apiUrl == None && searchData == old(searchData) && searchPage == old(searchPage)
      ensures query != "" ==> searchData == [] && searchPage == 1
      ensures query != "" ==> apiUrl == Some(EndpointPath(Endpoint(settings)))
      ensures settings == old(settings)
    {
      if query == "" {
        return None;
      }
      searchData := [];
      searchPage := 1;
      var url := "/api/v1/prowlarr/search";
      if (settings.prowlarrHost == "" || settings.prowlarrApiKey == "") && settings.jackettHost != "" && settings.jackettApiKey != "" {
        url := "/api/v1/jackett/search";
      }
      return Some(url);
    }

    /** The response arrived: a list replaces the results, anything falsy
        (null) empties them. */
    method ReceiveResults(data: Option<seq<Processed>>)
      modifies this
      ensures searchData == (if data.Some? then data.value else [])
      ensures searchPage == old(searchPage) && settings == old(settings)
    {
      if data.Some? {
        searchData := data.value;
      } else {
        searchData := [];
      }
    }

    /** updateSearchResults: what the results table and pagination show. */
    method UpdateSearchResults() returns (view: View<Processed>)
      ensures view == ViewOf(searchData, searchPage)
    {
      if |searchData| == 0 {
        return NoResults;
      }
      var start := (searchPage - 1) * PageSize;
      var end := start + PageSize;
      var rows := JsSlice(searchData, start, end);
      var pagination := GeneratePagination(searchPage, PageSize, |searchData|);
      return Results(rows, pagination);
    }

    /** A page button's click handler. */
    method ClickPage(i: int)
      modifies this
      ensures searchPage == i && searchData == old(searchData) && settings == old(settings)
    {
      searchPage := i;
    }

    /** The previous arrow's handler; `currentPage` is the page the
        pagination was generated for. */
    method ClickPrev(currentPage: int)
      modifies this
      ensures searchPage == (if currentPage > 1 then old(searchPage) - 1 else old(searchPage))
      ensures 1 <= currentPage == old(searchPage) ==> 1 <= searchPage <= currentPage
      ensures searchData == old(searchData) && settings == old(settings)
    {
      if currentPage > 1 {
        searchPage := searchPage - 1;
      }
    }

    /** The next arrow's handler. */
    method ClickNext(currentPage: int, totalPages: int)
      modifies this
      ensures searchPage == (if currentPage < totalPages then old(searchPage) + 1 else old(searchPage))
      ensures old(searchPage) == currentPage <= totalPages ==> currentPage <= searchPage <= totalPages
      ensures searchData == old(searchData) && settings == old(settings)
    {
      if currentPage < totalPages {
        searchPage := searchPage + 1;
      }
    }

    /** The settings were loaded from the server. */
    method SettingsLoaded(s: Settings)
      modifies this
      ensures settings == s && searchData == old(searchData) && searchPage == old(searchPage)
    {
      settings := s;
    }

    /** A save request succeeded: the posted part is spread over the
        settings, as the server's save handler assigns it. */
    method SettingsSaved(p: Patch)
      modifies this
      ensures settings == Apply(old(settings), p)
      ensures searchData == old(searchData) && searchPage == old(searchPage)
    {
      match p
      case ProxyPatch(e, u) =>
        settings := settings.(enableProxy := e, proxyUrl := u);
      case ProwlarrPatch(e, h, k) =>
        settings := settings.(enableProwlarr := e, prowlarrHost := h, prowlarrApiKey := k);
      case JackettPatch(e, h, k) =>
        settings := settings.(enableJackett := e, jackettHost := h, jackettApiKey := k);
    }
  }

  // ---------------------------------------------------------------- properties

  /** At most five buttons, in increasing consecutive order, all within
      [1, totalPages]; the button of the current page is there and active
      whenever the current page exists, and it is the only active one. */
  lemma WindowShape(current: int, totalPages: int)
    ensures var w := Window(current, totalPages);
      && |w| <= 5
      && (forall k :: 0 <= k < |w| ==> 1 <= w[k].page <= totalPages)
      && (forall k :: 0 < k < |w| ==> w[k].page == w[k - 1].page + 1)
      && (forall k :: 0 <= k < |w| ==> (w[k].active <==> w[k].page == current))
      && (1 <= current <= totalPages ==> exists k :: 0 <= k < |w| && w[k].page == current)
  {
    var w := Window(current, totalPages);
    if 1 <= current <= totalPages {
      var k := current - Max(1, current - 2);
      assert w[k].page == current;
    }
  }

  /** For a page that exists, the arrows are disabled exactly at the ends
      and every button names an existing page, so a click on a button keeps
      the page in range (the arrows' handlers say so in their own
      contracts). */
  lemma ButtonsStayInRange(current: int, total: nat)
    requires 1 <= current <= TotalPages(total, PageSize)
    ensures var n := TotalPages(total, PageSize);
      var pg := PaginationOf(current, PageSize, total);
      && (pg.prevDisabled <==> current == 1)
      && (pg.nextDisabled <==> current == n)
      && (forall b :: b in pg.buttons ==> 1 <= b.page <= n)
      && (exists b :: b in pg.buttons && b == Button(current, true))
  {
    var n := TotalPages(total, PageSize);
    WindowShape(current, n);
    var w := Window(current, n);
    var k :| 0 <= k < |w| && w[k].page == current;
    assert w[k] in w;
  }

  /** The rows of page p are the elements from (p - 1) * 5 up to p * 5, or
      fewer at the end, so never more than five. */
  lemma PageRowsRange<T>(data: seq<T>, page: int)
    requires page >= 1
    ensures var start := (page - 1) * PageSize;
      && |PageRows(data, page)| <= PageSize
      && (start < |data| ==> PageRows(data, page) == data[start..Min(start + PageSize, |data|)])
      && (start >= |data| ==> PageRows(data, page) == [])
  {
  }

  /** Every result is shown on exactly one page: result k is row k % 5 of
      page k / 5 + 1, and that page exists. */
  lemma ResultOnItsPage<T>(data: seq<T>, k: nat)
    requires k < |data|
    ensures var page := k / PageSize + 1;
      && page <= TotalPages(|data|, PageSize)
      && k % PageSize < |PageRows(data, page)|
      && PageRows(data, page)[k % PageSize] == data[k]
  {
    var page := k / PageSize + 1;
    var start := (page - 1) * PageSize;
    assert start == k - k % PageSize;
    PageRowsRange(data, page);
  }

  /** The case-insensitive suffix test of the page agrees with the server's
      lower-cased filepath.Ext. */
  lemma SuffixIsExt(name: string, e: string)
    requires Dotted(e)
    ensures HasSuffix(ToLower(name), e) <==> ToLower(Ext(name)) == e
  {
    if HasSuffix(ToLower(name), e) {
      SuffixGivesExt(name, e);
    }
    if ToLower(Ext(name)) == e {
      ExtGivesSuffix(name, e);
    }
  }

  lemma SuffixGivesExt(name: string, e: string)
    requires Dotted(e) && HasSuffix(ToLower(name), e)
    ensures ToLower(Ext(name)) == e
  {
    var n := |name|;
    var m := |e|;
    var low := ToLower(name);
    assert low[n - m..] == e;
    assert LowerChar(name[n - m]) == '.' by {
      assert low[n - m] == e[0];
    }
    var p := name[..n - m];
    var tail := name[n - m + 1..];
    forall j | 0 <= j < |tail|
      ensures tail[j] != '.' && tail[j] != '/'
    {
      assert low[n - m + 1 + j] == e[j + 1];
      assert LowerChar(tail[j]) == e[1..][j];
    }
    assert name == p + ['.'] + tail;
    ExtOfTail(p, tail);
    var ext := Ext(name);
    assert ext == name[n - m..];
    forall j | 0 <= j < |ext|
      ensures ToLower(ext)[j] == e[j]
    {
      assert ext[j] == name[n - m + j];
      assert low[n - m + j] == e[j];
    }
  }

  lemma ExtGivesSuffix(name: string, e: string)
    requires ToLower(Ext(name)) == e
    ensures HasSuffix(ToLower(name), e)
  {
    var ext := Ext(name);
    var n := |name|;
    var q := |ext|;
    assert name[n - q..] == ext;
    LowerSlice(name, n - q);
  }

  /** Lower-casing commutes with taking a suffix. */
  lemma LowerSlice(s: string, i: nat)
    requires i <= |s|
    ensures ToLower(s)[i..] == ToLower(s[i..])
  {
  }

  /** The page's filter for a list of extensions is membership of the
      server's lower-cased extension in that list. */
  lemma ExtensionIff(name: string, exts: seq<string>)
    requires forall k :: 0 <= k < |exts| ==> Dotted(exts[k])
    ensures EndsWithExtension(name, exts) <==> ToLower(Ext(name)) in exts
  {
    forall k | 0 <= k < |exts|
      ensures HasSuffix(ToLower(name), exts[k]) <==> ToLower(Ext(name)) == exts[k]
    {
      SuffixIsExt(name, exts[k]);
    }
  }

  lemma ExtensionListsDotted()
    ensures forall k :: 0 <= k < |VideoExtensions| ==> Dotted(VideoExtensions[k])
    ensures forall k :: 0 <= k < |SubtitleExtensions| ==> Dotted(SubtitleExtensions[k])
  {
    assert Dotted(".mp4") && Dotted(".mkv") && Dotted(".webm") && Dotted(".avi");
    assert Dotted(".srt") && Dotted(".vtt") && Dotted(".sub");
  }

  lemma VideoIff(name: string)
    ensures IsVideo(name) <==> ToLower(Ext(name)) in VideoExtensions
  {
    ExtensionListsDotted();
    ExtensionIff(name, VideoExtensions);
  }

  lemma SubtitleIff(name: string)
    ensures IsSubtitle(name) <==> ToLower(Ext(name)) in SubtitleExtensions
  {
    ExtensionListsDotted();
    ExtensionIff(name, SubtitleExtensions);
  }

  /** A file is a video for the page exactly when the server's extension
      table gives it a video type, and a subtitle exactly when the server
      marks it as one; no file is both. */
  lemma ClassificationAgrees(name: string)
    ensures IsVideo(name) <==> ToLower(Ext(name)) in VideoExtensions
    ensures IsSubtitle(name) <==> SubtitleExtension(ToLower(Ext(name)))
    ensures IsVideo(name) ==> ContentType(ToLower(Ext(name))) in {"video/mp4", "video/x-matroska", "video/webm", "video/x-msvideo"}
    ensures !(IsVideo(name) && IsSubtitle(name))
  {
    VideoIff(name);
    SubtitleIff(name);
    ExtensionTables(ToLower(Ext(name)));
  }

  /** The page's extension lists against the server's table. */
  lemma ExtensionTables(x: string)
    ensures x in SubtitleExtensions <==> SubtitleExtension(x)
    ensures x in VideoExtensions ==> !SubtitleExtension(x)
    ensures x in VideoExtensions ==> ContentType(x) in {"video/mp4", "video/x-matroska", "video/webm", "video/x-msvideo"}
  {
    if x in VideoExtensions {
      assert x == ".mp4" || x == ".mkv" || x == ".webm" || x == ".avi";
    }
  }

  /** A subtitle named <base>.<2 or 3 letters><.srt, .vtt or .sub in any
      case> gets exactly those letters as its language. */
  lemma LanguageOfName(base: string, lang: string, ext: string)
    requires 2 <= |lang| <= 3 && forall j :: 0 <= j < |lang| ==> IsLetter(lang[j])
    requires |ext| == 4 && ToLower(ext) in SubtitleExtensions
    ensures SubtitleLanguage(base + ['.'] + lang + ext) == lang
  {
    var name := base + ['.'] + lang + ext;
    var n := |name|;
    var k := |lang|;
    assert name[n - k - 5] == '.';
    assert name[n - k - 4..n - 4] == lang;
    assert name[n - 4..] == ext;
    assert LanguageSuffix(name, k);
    if k == 2 {
      assert !IsLetter(name[n - 7]);
    }
  }

  /** The filters keep listing order and multiplicity: filtering a
      concatenation is concatenating the filtered parts, and one entry is
      kept exactly when it matches. */
  lemma {:induction false} FilterConcat(a: seq<FileEntry>, b: seq<FileEntry>, video: bool)
    ensures Filter(a + b, video) == Filter(a, video) + Filter(b, video)
    decreases |b|
  {
    if |b| == 0 {
      assert a + b == a;
    } else {
      var front := b[..|b| - 1];
      FilterConcat(a, front, video);
      assert (a + b)[..|a + b| - 1] == a + front;
      assert (a + b)[|a + b| - 1] == b[|b| - 1];
      var x := b[|b| - 1];
      assert Filter(a, video) + Filter(front, video) + [x] == Filter(a, video) + (Filter(front, video) + [x]);
    }
  }

  lemma FilterOne(e: FileEntry, video: bool)
    ensures Filter([e], video) == if (if video then IsVideo(e.name) else IsSubtitle(e.name)) then [e] else []
  {
    assert [e][..0] == [];
  }

  predicate AllLetters(s: string) {
    forall j :: 0 <= j < |s| ==> IsLetter(s[j])
  }

  /** A name with the language suffix is some base, '.', k letters and a
      four-character subtitle extension ... */
  lemma LanguageSuffixShape(name: string, k: nat)
    requires LanguageSuffix(name, k)
    ensures var n := |name|;
      var base := name[..n - k - 5];
      var lang := name[n - k - 4..n - 4];
      var ext := name[n - 4..];
      && name == base + ['.'] + lang + ext
      && |lang| == k && AllLetters(lang)
      && |ext| == 4 && ToLower(ext) in SubtitleExtensions
  {
    var n := |name|;
    assert name == name[..n - k - 5] + [name[n - k - 5]] + name[n - k - 4..n - 4] + name[n - 4..];
  }

  /** ... and every such name has it. */
  lemma ShapeHasLanguageSuffix(base: string, lang: string, ext: string)
    requires AllLetters(lang)
    requires |ext| == 4 && ToLower(ext) in SubtitleExtensions
    ensures LanguageSuffix(base + ['.'] + lang + ext, |lang|)
  {
    var name := base + ['.'] + lang + ext;
    var n := |name|;
    var k := |lang|;
    assert name[n - k - 5] == '.';
    assert name[n - 4..] == ext;
    forall j | n - k - 4 <= j < n - 4
      ensures IsLetter(name[j])
    {
      assert name[j] == lang[j - (n - k - 4)];
    }
  }

  /** Seven '/'-free pieces joined by '/' split back into themselves. */
  lemma {:induction false} SplitSeven(a: string, b: string, c: string, d: string, e: string, f: string, g: string)
    requires '/' !in a && '/' !in b && '/' !in c && '/' !in d && '/' !in e && '/' !in f && '/' !in g
    ensures Split(a + ['/'] + (b + ['/'] + (c + ['/'] + (d + ['/'] + (e + ['/'] + (f + ['/'] + g))))), '/')
         == [a, b, c, d, e, f, g]
  {
    SplitWithoutSep(g, '/');
    SplitAfterPiece(f, '/', g);
    SplitAfterPiece(e, '/', f + ['/'] + g);
    SplitAfterPiece(d, '/', e + ['/'] + (f + ['/'] + g));
    SplitAfterPiece(c, '/', d + ['/'] + (e + ['/'] + (f + ['/'] + g)));
    SplitAfterPiece(b, '/', c + ['/'] + (d + ['/'] + (e + ['/'] + (f + ['/'] + g))));
    SplitAfterPiece(a, '/', b + ['/'] + (c + ['/'] + (d + ['/'] + (e + ['/'] + (f + ['/'] + g)))));
  }

  lemma PrefixPieces()
    ensures TorrentPrefix == "" + ['/'] + "api" + ['/'] + "v1" + ['/'] + "torrent" + ['/']
  {
  }

  /** Splitting a stream path gives the session id at position 4, "stream"
      at 5 and the last segment at 6. */
  lemma SplitStreamPath(sessionId: string, segment: string)
    requires '/' !in sessionId && '/' !in segment
    ensures Split(TorrentPrefix + sessionId + "/stream/" + segment, '/') == ["", "api", "v1", "torrent", sessionId, "stream", segment]
  {
    PrefixPieces();
    assert "/stream/" == ['/'] + "stream" + ['/'];
    assert TorrentPrefix + sessionId + "/stream/" + segment
        == "" + ['/'] + ("api" + ['/'] + ("v1" + ['/'] + ("torrent" + ['/'] + (sessionId + ['/'] + ("stream" + ['/'] + segment)))));
    SplitSeven("", "api", "v1", "torrent", sessionId, "stream", segment);
  }

  lemma DigitsLackSlash(s: string)
    requires AllDigits(s)
    ensures '/' !in s
  {
    forall k | 0 <= k < |s|
      ensures s[k] != '/'
    {
      assert IsDigit(s[k]);
    }
  }

  /** The index segment of both URLs parses back to the index. */
  lemma IndexSegments(index: nat)
    requires index <= MaxInt64
    ensures FileIndex(NatToString(index)) == Some(index)
    ensures FileIndex(NatToString(index) + ".vtt") == Some(index)
  {
    var s := NatToString(index);
    AtoiNatToString(index);
    assert !HasSuffix(s, ".vtt") by {
      assert IsDigit(s[|s| - 1]);
      assert |s| < 4 || s[|s| - 4..][3] != ".vtt"[3];
    }
    SuffixOfConcat(s, ".vtt");
    assert TrimSuffix(s + ".vtt", ".vtt") == s;
  }

  /** The URLs the page builds reach the file they name: for a listed file
      of a session whose id has no '/' (one the engine still lists when the
      request arrives), the video URL streams that file and
      the subtitle URL, with its format=vtt query, converts or streams it. */
  lemma UrlsReachTheirFile(sessionId: string, index: nat, sessions: map<string, Session>, files: seq<TorrentFile>,
                           content: Option<string>)
    requires '/' !in sessionId
    requires sessionId in sessions && index < |files|
    requires index <= MaxInt64
    ensures Route(StreamPath(sessionId, index), "", sessions, files, content).Streamed?
    ensures Route(StreamPath(sessionId, index), "", sessions, files, content).index == index
    ensures var out := Route(SubtitlePath(sessionId, index), "vtt", sessions, files, content);
      (out.Streamed? && out.index == index) || (out.Converted? && out.index == index) ||
      out == Rejected(Reply(StatusInternalServerError, "Failed to read subtitle file"))
  {
    var s := NatToString(index);
    DigitsLackSlash(s);
    IndexSegments(index);
    SplitStreamPath(sessionId, s);
    assert '/' !in s + ".vtt";
    SplitStreamPath(sessionId, s + ".vtt");
    assert SubtitlePath(sessionId, index) == TorrentPrefix + sessionId + "/stream/" + (s + ".vtt");
  }

  /** The page's choice of endpoint passes that service's precheck whenever
      either service is configured. */
  lemma EndpointIsConfigured(s: Settings)
    requires Configured(Prowlarr, s) || Configured(Jackett, s)
    ensures Configured(Endpoint(s), s)
  {
  }

}
