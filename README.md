# bitplay, modelled in Dafny

bitplay is a small Go web server that streams torrents to a browser. A
client posts a magnet link (or an http link that redirects to one). The
server starts a torrent client on its own listen port and waits for the
torrent's metadata. It stores a session under the info hash, then answers
with the session id. The page lists the session's files. It plays a video
through `/api/v1/torrent/<id>/stream/<i>` and fetches subtitles through the
same path with a `.vtt` suffix and `?format=vtt`; the server converts an
SRT file to WebVTT on the fly. A background sweep evicts sessions idle for
more than fifteen minutes. The server also proxies searches to Prowlarr or
Jackett and normalises their results. It keeps a settings record that three
save handlers update part by part, and it turns an uploaded `.torrent` file
into a magnet link.

The model covers the server's state-changing code as imperative Dafny. The
class `Server.Globals` holds the used-port set, the session map, the open
torrent clients and the settings. Its methods (port allocation, session
creation, request routing with the lookup stamp, the idle sweep and the
settings saves) are each proved equal to a pure definition. The properties
are proved about those definitions. The browser page's state (`settings`,
`searchData`, `searchPage`) is the class `Client.Page`. Its pure
computations are functions: the pagination window, the page slice, the
file filters, the subtitle language and the stream URLs.

Modules, one per concern of the source:

- `Wrappers`, `Http`: Option, and the status codes and replies.
- `Text`: the parts of Go's `strings`, `strconv` and `path/filepath` the
  code relies on (Split, TrimSpace, Atoi, ToLower, Ext and others).
- `Ports`: getAvailablePort and releasePort. The random draws are passed in.
- `Settings`: the settings record, the three partial saves and the
  proxy-or-direct client choice.
- `Sessions`: the registry, its invariant, the creation flow of
  addTorrentHandler with initTorrentWithProxy, the lookup stamp and the sweep.
- `Vtt`: convertSRTtoVTT. The header and the period fraction separator
  follow section 4.1 ("WebVTT file structure") of the W3C WebVTT
  specification.
- `Router`: the path checks, index parsing and content-type table of
  torrentHandler.
- `Search`: the result loops of searchFromProwlarr and searchFromJackett.
- `Magnet`: convertTorrentToMagnetHandler. The link has the form of
  BEP 9, section "Magnet URI format".
- `Server`: the class Globals.
- `Client`: client/assets/index.js.

Quirks of the code that the model keeps:

- A handler that writes several times sends one response: the first
  write's status, which net/http keeps, and every write's JSON body one
  after the other (`Http.Sent`). The model records the writes in order.
- An empty magnet is written to twice, by the empty check and by the
  prefix check, so the client receives one 400 response with both error
  bodies.
- A metadata timeout writes 504, still stores the session, then writes the
  session id. The client receives status 504 with both bodies and reports
  a failure, while the session and its port stay until the sweep.
- Storing under an info hash that is already present orphans the old
  session: its client stays open and its port stays recorded.
- A session idle for exactly fifteen minutes survives the sweep.
- Jackett keeps a result whose only link is a MagnetUri without the
  `magnet:` prefix, and gives it no link at all.

Behaviours of the code that are easy to misread from its names and
comments, each modelled as the code has it:

- The code has no way to force a direct client for metadata calls:
  `createSelectiveProxyClient` honours only the proxy flag, whatever the
  comments at its call sites say. `Settings.SelectiveClient` and
  `Sessions.FetchClient` model that.
- Only a `.srt` file asked for with `format=vtt` is transcoded. A `.vtt`
  suffix on the index segment is only trimmed before the index is parsed.
- A subtitle line is dropped when `strconv.Atoi` accepts its trimmed text,
  not only when it is an unsigned sequence number, so `+3` and `-7` are
  dropped too (`Text.AtoiAccepts`).
- A session is evicted only when it is idle for strictly more than the
  timeout.
- Not every failure releases what it took: the overwrite case above
  leaves the old client open and its port recorded.
- The session stores no file list. Every request asks the torrent for its
  files again, so after a metadata timeout the listing can grow once the
  metadata arrives; `Router.Route` takes the current list as an input.

## Model

| member | source | states |
|---|---|---|
| Ports.FirstFree | main.go:166-176 | the first attempt from i whose candidate is not in use; every earlier attempt's candidate is in use; None exactly when every remaining candidate is in use |
| Ports.Allocate | main.go:162-182 | a recorded port is in [10000, 60000) and was not in use; a port is recorded iff some of the fifty draws is free; otherwise the port is 60000 plus the fallback draw, in [60000, 65000) |
| Ports.Release | main.go:185-189 | the port is no longer in use, every other port keeps its status, and releasing a port not in use changes nothing |
| Ports.AllocateTakesFirstFree | main.go:166-176 | a recorded port is the candidate of some attempt k, and every attempt before k drew a port in use |
| Ports.AllocateMarksOnlyItsPort | main.go:162-182 | after an allocation the granted port is in use iff it was recorded, the set still holds only loop ports, and no other port changed status |
| Ports.FullPoolFallsBack | main.go:179-181 | when every loop port is in use the allocator returns the unrecorded fallback |
| Ports.ReleasedIsAllocatable | main.go:185-189 | a released port is granted and recorded again when it is the first draw |
| Ports.AllocateThenRelease | main.go:162-189 | releasing a recorded port restores the used set |
| Server.Globals.GetAvailablePort | main.go:162-182 | the loop returns the port Ports.Allocate grants and leaves the used set as Ports.UsedAfter gives; nothing else changes |
| Server.Globals.ReleasePort | main.go:185-189 | the used set becomes Ports.Release of the old set; nothing else changes |
| Server.Globals.constructor | main.go:272-281 | a fresh server has no ports, sessions or clients, the default settings, and a valid registry |
| Settings.Apply | main.go:1282-1351 | a save gives its own part exactly the posted values and leaves the other two parts unchanged |
| Settings.Save | main.go:1265-1296 | OPTIONS writes nothing and changes nothing; another non-POST verb gets 405 and changes nothing; the settings change only for a POST whose body decodes; at most one reply |
| Settings.SelectiveClient | main.go:123-139 | the direct 30-second client iff the proxy is disabled, otherwise the shared client with the configured proxy URL |
| Settings.SaveAssignsBeforeWriting | main.go:1282-1290 | a decoded POST assigns the posted part even when writing the file fails; the reply is 200 iff the write succeeds |
| Settings.SavesOfDifferentPartsCommute | main.go:1283-1351 | saves of two different parts commute |
| Settings.LaterSaveWins | main.go:1317-1319 | of two saves of the same part, the later one decides the result |
| Settings.SaveCurrentIsNoOp | main.go:1349-1351 | saving a part's current values changes nothing |
| Settings.DefaultsAreDirect | main.go:272-281 | the defaults select the direct client and enable neither search service |
| Server.Globals.SaveSettings | main.go:1299-1327 | the settings and replies are those of Settings.Save on the old settings; the registry is unchanged |
| Sessions.Valid | main.go:36-75 | the registry invariant, a definition with no contract of its own: loop ports only in the used set; each session's loop port recorded and its client open; no two sessions share a client or a loop port; kept by Sessions.AddTorrentValid, Sessions.SweepValid and Sessions.StampValid |
| Sessions.AcceptableMagnet | main.go:496-500 | the locator check, a definition with no contract of its own: non-empty and starting with "magnet:"; Sessions.FailureReplies and Sessions.HttpLocatorNeedsMagnetRedirect state what it decides |
| Sessions.Sweep | main.go:752-763 | one tick of cleanupSessions, a definition with no contract of its own; Sessions.SweepEvictsExactlyExpired, Sessions.SweepReleasesEvicted and Sessions.SweepValid state its properties |
| Sessions.Stamp | main.go:587-600 | the found session's lastUsed becomes now; every other session, the ports, the clients and the key set are unchanged |
| Sessions.ResolveLocator | main.go:444-494 | a locator not starting with "http" is used as given; a used locator is the given one or starts with "magnet:"; every refusal is 400 |
| Sessions.FetchClient | main.go:444-447 | an http locator, and only one, is fetched, with the client Settings.SelectiveClient gives |
| Sessions.AddTorrent | main.go:431-550 | at least one reply is written and the client counter never decreases |
| Sessions.EmptyRegistryValid | main.go:71-75 | the empty registry satisfies the invariant |
| Sessions.FailureLeaksNothing | main.go:503-523 | when the last reply is not 200 the used ports, the sessions and the open clients are as before: the port was released and the client closed |
| Sessions.SuccessStores | main.go:526-549 | on a final 200 the session is stored under the info hash with the granted port, a new open client and the clock reading taken at the Store (after the metadata wait); the port stays recorded |
| Sessions.EmptyMagnetAnsweredTwice | main.go:439-500 | an empty magnet is written "No magnet link provided" and then "Invalid magnet link" and changes nothing; the client receives one 400 response with both bodies |
| Sessions.TimeoutStillStores | main.go:526-549 | a metadata timeout writes 504 and then 200, and the session is stored with the granted port; the client receives status 504 with the timeout body followed by the session id |
| Sessions.OkSentIffCleanSuccess | main.go:526-549 | the client receives status 200 exactly when a non-empty locator led to a stored session whose info arrived in time |
| Http.Sent | main.go:739-743 | the response a sequence of writes produces: the first write's status and every write's body, in order |
| Sessions.OverwriteOrphansOldSession | main.go:533-540 | storing under an existing info hash leaves the old client open and its port recorded, and no session refers to that client any more |
| Sessions.AddTorrentValid | main.go:503-549 | creation, on every path, keeps the registry invariant: ports recorded, clients open and distinct, loop ports distinct |
| Sessions.SweepEvictsExactlyExpired | main.go:752-763 | a sweep keeps exactly the sessions with now − lastUsed ≤ 15 minutes, each unchanged |
| Sessions.SweepKeepsBoundary | main.go:755 | a session idle for exactly fifteen minutes is kept |
| Sessions.SweepReleasesEvicted | main.go:755-759 | every evicted session's port is released and its client closed; no other port changes status |
| Sessions.SweepValid | main.go:752-763 | a sweep keeps the registry invariant |
| Sessions.StampValid | main.go:600 | the stamp keeps the invariant, and a session just stamped survives a sweep at the same time |
| Sessions.HttpLocatorNeedsMagnetRedirect | main.go:479-500 | an http locator leads to an acceptable magnet iff its answer is a 3xx whose Location starts with "magnet:" |
| Sessions.FailureReplies | main.go:431-523 | each failure path ends with its reply: 400 "Invalid request" alone for an undecodable body, the locator's own refusal, 400 "Invalid magnet link", 500 "Failed to create client with proxy", 400 "Invalid magnet url"; a non-empty locator gets one reply, or two on the timeout path |
| Server.Globals.AddTorrent | main.go:431-550 | the replies and the new registry are those of Sessions.AddTorrent, and the invariant is kept |
| Server.Globals.Deferred | main.go:512-517 | the deferred cleanup releases the port and closes the client iff the client was not handed to a session |
| Server.Globals.HandleTorrent | main.go:553-703 | the answer is Router.Route on the sessions before the stamp and the files the torrent lists during the request; a path with a session part stamps that session (Sessions.Stamp), otherwise nothing changes |
| Server.Globals.OpenClient | main.go:220-239 | a new client gets the next number, which becomes open; nothing else changes |
| Server.Globals.CloseClient | main.go:515 | the client is no longer open; ports and sessions are unchanged |
| Server.Globals.CleanupSessions | main.go:746-766 | one tick of the sweep leaves exactly Sessions.Sweep of the old registry |
| Server.Globals.EvictIfExpired | main.go:754-761 | one visit of the range callback: the state advances from the sweep over `done` to the sweep over `done` plus this session |
| Server.PartialSweepStep | main.go:752-763 | visiting one more session evicts it exactly when it has expired, and it is still present and unchanged before the visit |
| Server.PartialSweepAll | main.go:752-763 | once every session has been visited, the partial sweep is the whole sweep, whatever the visiting order |
| Vtt.KeptLines | main.go:716-733 | the input lines that are not cue numbers, rewritten, in input order, a definition with no contract of its own; Vtt.KeptNotCueNumbers, Vtt.KeptComeFromInput, Vtt.KeptLinesConcat and Vtt.CueNumbersDropped state its properties |
| Vtt.Transcode | main.go:649-659 | conversion of the first ReadCap characters of the file, a definition with no contract of its own; Router.ConvertedIsVtt states that its answer starts with the WebVTT header |
| Vtt.SrtToVtt | main.go:706-736 | the output starts with "WEBVTT\n\n" |
| Vtt.ConvertSrtToVtt | main.go:706-736 | the appending loop returns exactly SrtToVtt of its input |
| Vtt.RewriteLine | main.go:719-732 | a line is skipped iff Atoi accepts its trimmed text; otherwise it is written with one "\n" |
| Vtt.EmittedIsTerminated | main.go:716-733 | after n lines, the output is the kept lines of those n lines, each followed by one "\n" |
| Vtt.AtoiRejects | main.go:720 | a text holding a character that is neither a digit nor a sign is not a number |
| Vtt.TimingLinesUseDots | main.go:724-727 | a rewritten timing line keeps its length and its arrow, has no comma left, and differs from the input only where a comma was |
| Vtt.TimingLineNotCueNumber | main.go:720-724 | a line with " --> " is never dropped |
| Vtt.NumberIsCueNumber | main.go:720 | the decimal text of a number (within int64) is dropped |
| Vtt.ConvertedNotCueNumber | main.go:719-727 | a kept line, once rewritten, is not a cue number |
| Vtt.KeptNotCueNumbers | main.go:719-722 | no line of the output body is a cue number |
| Vtt.KeptComeFromInput | main.go:716-733 | every output line is the rewrite of an input line that was not dropped |
| Vtt.KeptLinesConcat | main.go:716-733 | keeping distributes over concatenation of the input, so kept lines come out in input order |
| Vtt.OutputLength | main.go:710-733 | the output length is 8 plus the sum, over kept lines, of the line length plus one |
| Vtt.OutputLines | main.go:714-733 | the output after the header, split on "\n", is the kept lines followed by one empty piece |
| Vtt.CueNumbersDropped | main.go:719-722 | an input line that is a cue number is not among the output lines |
| Vtt.OneCue | main.go:706-736 | a cue "n", timing line, text line becomes the header, the timing line with periods, the text line and the line left by the final newline |
| Router.Entries | main.go:693-700 | the listing has one entry per file, in engine order, with its index, display path and length |
| Router.ListFiles | main.go:693-700 | the listing loop returns Entries of the files |
| Router.PathSession | main.go:558-571 | the session part of a path, a definition with no contract of its own, used by Router.ServedIndexInRange and Server.Globals.HandleTorrent |
| Router.FileIndex | main.go:608-614 | the index segment with one ".vtt" suffix trimmed, parsed by Atoi, a definition with no contract of its own; Client.IndexSegments states that the page's segments parse back |
| Router.ContentType | main.go:633-674 | the content-type switch, a definition with no contract of its own; Router.ContentTypeTable states the table |
| Router.Route | main.go:553-703 | torrentHandler's answer: a 404 names the id asked for and exactly the stored ids; a streamed or converted index is within the torrent's current file list; every other refusal is 400 or 500 |
| Router.ServedIndexInRange | main.go:603-626 | a file is streamed or converted only for a found session and an index within the torrent's current file list |
| Router.RouteChecks | main.go:558-623 | fewer than 5 parts is 400 "Invalid path"; an unknown id is the 404 naming the id and the stored ids; no "stream" part gives the listing; a stream path of 6 parts is 400 "Invalid stream path"; an index that does not parse is 400 "Invalid file index"; a parsed index outside [0, number of files) is 400 "File index out of range" |
| Router.ContentTypeTable | main.go:633-674 | .mp4, .webm, .mkv and .avi get their video types, .srt and .sub text/plain, .vtt text/vtt, anything else application/octet-stream; the CORS marking holds exactly for .srt, .vtt and .sub |
| Router.StreamedHeaders | main.go:628-674 | a file served as it is gets the content type of its lower-cased extension and the CORS header exactly for .srt, .vtt and .sub; an .srt file is served as it is only without format=vtt |
| Router.ConvertedIsVtt | main.go:644-660 | a converted answer is for an .srt file asked for with format=vtt and read successfully, and starts with the WebVTT header |
| Search.StringField | main.go:909-913 | the Go type assertion succeeds iff the key is present and holds a string, and then yields that string |
| Search.NumberField | main.go:940-950 | the float64 assertion succeeds iff the key is present and holds a number |
| Search.Configured | main.go:857-860 | the host-and-key precheck of both search handlers, a definition with no contract of its own; Client.EndpointIsConfigured relates it to the page's choice of service |
| Search.KeysOf | main.go:909-950 | the key names each service's records use, a definition with no contract of its own, read by Search.SkippedIff and Search.KeptLink |
| Search.Normalize | main.go:906-965 | one pass of the result loop, a definition with no contract of its own; Search.SkippedIff, Search.KeptLink and Search.ProwlarrAlwaysLinked state when it keeps a record and what it keeps |
| Search.ProcessAll | main.go:906-965 | the whole result loop as a function, with no contract of its own; Search.ProcessAllShorter and Search.OrderPreserved state its properties |
| Search.ProcessResults | main.go:906-965 | the result loop returns ProcessAll of the records |
| Search.SkippedIff | main.go:915-923 | a record is skipped iff its title is missing or empty, or both its links are |
| Search.KeptLink | main.go:925-937 | a kept record keeps its title; its link is the magnet iff that is usable (for Jackett, prefixed "magnet:"), otherwise the non-empty download link; no link only for Jackett without either |
| Search.ProwlarrAlwaysLinked | main.go:931-937 | a Prowlarr result always carries a link |
| Search.JackettKeepsUnlinkedResult | main.go:1128-1134 | a Jackett record with a title and only an http MagnetUri is kept with no link |
| Search.ProcessAllShorter | main.go:906-965 | there are never more results than records |
| Search.OrderPreserved | main.go:906-965 | the k-th result is the normalisation of the k-th kept record, kept indices increase, and every record that normalises is kept |
| Magnet.MagnetUri | main.go:1413-1429 | the link as a function, with no contract of its own; Magnet.MagnetAnswerShape, Magnet.SplitMagnet and Magnet.TrackersInOrder state its form |
| Magnet.BuildMagnet | main.go:1413-1429 | the nested tracker loops build exactly MagnetUri of the hash, the name and the announce list |
| Magnet.Convert | main.go:1363-1434 | the answer is the magnet iff the verb is POST and the file is present, at most 10 MiB, read and loaded; it is then MagnetUri with status 200; every error has a non-200 status |
| Magnet.MagnetAnswerShape | main.go:1413-1416 | every magnet answer starts with "magnet:?xt=urn:btih:" and the info hash |
| Magnet.SplitMagnet | main.go:1416-1429 | split on '&', the link gives the exact topic, the dn parameter when the name is known, and one tr parameter per tracker in order |
| Magnet.TrackersInOrder | main.go:1425-1429 | tracker j of tier i sits at the position after all trackers of earlier tiers and the first j of its own |
| Text.Split | main.go:558 | strings.Split on one separator character: there is always at least one piece; Text.SplitPiecesLackSep and Text.JoinSplit state that no piece holds the separator and that joining the pieces gives the text back |
| Text.SplitPiecesLackSep | main.go:558 | no piece of a split holds the separator |
| Text.JoinSplit | main.go:558 | joining the pieces of a split with the separator gives back the text |
| Text.TrimSpace | main.go:720 | strings.TrimSpace, a definition with no contract of its own; Text.TrimSpaceEnds and Text.TrimSpaceKeeps state its properties |
| Text.Atoi | main.go:612 | a parsed value has an optional sign followed by digits only, and lies within int64 |
| Text.AtoiAccepts | main.go:612 | every text of "", "+" or "-" followed by one or more digits whose signed value fits in int64 is accepted with that value |
| Text.AtoiAccepted | main.go:612 | every accepted text is an optional sign followed by one or more digits, and its value is their signed value |
| Text.TrimSpaceEnds | main.go:720 | TrimSpace gives the stretch of the text between its leading and its trailing white space, which neither starts nor ends with white space |
| Text.TrimSpaceKeeps | main.go:720 | a character that is not white space is never trimmed away |
| Text.AtoiNatToString | main.go:612 | Atoi parses the decimal text of any number up to MaxInt64 back to that number |
| Text.TrimSuffix | main.go:610 | with the suffix present, the result plus the suffix is the input; otherwise the input is unchanged |
| Text.Ext | main.go:628 | the extension is empty or a suffix of the path starting at '.' with no later '.' or '/' |
| Text.ToLower | main.go:628 | lower-casing keeps the length and maps each character by its ASCII lower case |
| Text.ReplaceAll | main.go:726 | every ',' becomes '.', every other character is kept, and the length is unchanged |
| Text.NatToString | client/assets/index.js:201 | the text is a non-empty digit string whose value is the number |
| Client.PaginationOf | client/assets/index.js:365-409 | the pagination as a function, with no contract of its own; Client.WindowShape and Client.ButtonsStayInRange state its properties |
| Client.JsSlice | client/assets/index.js:426-428 | Array.prototype.slice with JavaScript's clamping of negative and oversized bounds; the slice is never longer than the array |
| Client.PageRows | client/assets/index.js:426-428 | the rows of one page, a definition with no contract of its own; Client.PageRowsRange and Client.ResultOnItsPage state its properties |
| Client.ViewOf | client/assets/index.js:415-452 | nothing but the footer for no results, otherwise PageRows and PaginationOf of the results, a definition with no contract of its own, computed by Client.Page.UpdateSearchResults |
| Client.StreamPath | client/assets/index.js:199-205 | the video source path, a definition with no contract of its own; Client.SplitStreamPath and Client.UrlsReachTheirFile state how the server reads it |
| Client.SubtitlePath | client/assets/index.js:222-227 | the subtitle source path, a definition with no contract of its own; Client.IndexSegments and Client.UrlsReachTheirFile state how the server reads it |
| Client.TotalPages | client/assets/index.js:370 | the ceiling of total / pageSize: the smallest n with n · pageSize ≥ total |
| Client.GeneratePagination | client/assets/index.js:365-409 | the button loop and arrows give exactly PaginationOf: buttons from max(1, cur − 2) to min(totalPages, cur + 2), prev disabled at page 1, next at the last page |
| Client.WindowShape | client/assets/index.js:370-386 | at most five buttons, consecutive, within [1, totalPages], active exactly for the current page, which is present whenever it exists |
| Client.ButtonsStayInRange | client/assets/index.js:365-409 | for an existing page, prev is disabled iff the page is 1 and next iff it is the last; every button names an existing page, and the current page's button is there and active |
| Client.PageRowsRange | client/assets/index.js:426-428 | the rows of page p are data[(p − 1) · 5 .. min((p − 1) · 5 + 5, length)], never more than five, and none past the end |
| Client.ResultOnItsPage | client/assets/index.js:426-428 | result k is row k mod 5 of page k div 5 + 1, and that page exists |
| Client.Filter | client/assets/index.js:172-197 | the filtered list holds exactly the listed files of the class asked for, and is no longer than the list |
| Client.FilterConcat | client/assets/index.js:172-197 | filtering a concatenation is concatenating the filtered parts, so listing order and repeated entries are kept |
| Client.FilterOne | client/assets/index.js:172-197 | a single entry is kept exactly when it is of the class asked for |
| Client.SuffixIsExt | client/assets/index.js:172-174 | the case-insensitive suffix test agrees with the server's lower-cased filepath.Ext for any dotted extension |
| Client.ExtensionIff | client/assets/index.js:172-197 | a name matches a list of dotted extensions iff its lower-cased extension is in the list |
| Client.VideoIff | client/assets/index.js:172-174 | a name is a video iff its lower-cased extension is .mp4, .mkv, .webm or .avi |
| Client.SubtitleIff | client/assets/index.js:195-197 | a name is a subtitle iff its lower-cased extension is .srt, .vtt or .sub |
| Client.ExtensionTables | main.go:633-674 | the page's subtitle list is the server's CORS set, and every video extension of the page has a video type on the server |
| Client.ClassificationAgrees | client/assets/index.js:172-197 | the page's video test matches the server's video types, its subtitle test the server's subtitle marking, and no file is both |
| Client.SubtitleLanguage | client/assets/index.js:210-219 | the language is "en" or two or three letters, and it is "en" whenever the name has neither suffix shape |
| Client.LanguageSuffixShape | client/assets/index.js:215 | a name with the suffix of length k is a base, a '.', k letters and a four-character .srt, .vtt or .sub in any case |
| Client.ShapeHasLanguageSuffix | client/assets/index.js:215 | every name of that shape has the suffix of its letters' length |
| Client.LanguageOfName | client/assets/index.js:215-218 | a name ending ".<2 or 3 letters>.<srt, vtt or sub in any case>" gets exactly those letters |
| Client.SplitStreamPath | client/assets/index.js:199-205 | a stream path splits with the session id at part 4, "stream" at part 5 and the index segment at part 6 |
| Client.IndexSegments | client/assets/index.js:222-227 | both the plain and the ".vtt" index segment parse back to the index |
| Client.UrlsReachTheirFile | client/assets/index.js:199-227 | for a listed file of a session whose id has no '/', the video URL streams that file, and the subtitle URL with format=vtt streams or converts it, or fails only on the read |
| Client.Endpoint | client/assets/index.js:495-503 | Jackett iff Prowlarr's host or key is empty and Jackett's host and key are both set |
| Client.EndpointIsConfigured | client/assets/index.js:495-503 | whenever either service is configured, the chosen one passes the server's precheck |
| Client.Page.constructor | client/assets/index.js:6-15 | the page starts with the default settings of the `settings` object, and (index.js lines 411-413) no results and page 1 |
| Client.Page.SubmitSearch | client/assets/index.js:468-503 | an empty query sends nothing and changes nothing; otherwise the results are dropped, page 1 selected, and the endpoint is EndpointPath of Endpoint(settings) |
| Client.Page.ReceiveResults | client/assets/index.js:517-521 | a list replaces the results; a missing or falsy answer empties them; page and settings are unchanged |
| Client.Page.UpdateSearchResults | client/assets/index.js:415-452 | the view is ViewOf the results and the page, and nothing changes |
| Client.Page.ClickPage | client/assets/index.js:381-384 | a button click selects its page |
| Client.Page.ClickPrev | client/assets/index.js:391-396 | the page goes down by one iff the shown page is above 1, so from a shown page of at least 1 it stays within [1, that page] |
| Client.Page.ClickNext | client/assets/index.js:402-407 | the page goes up by one iff the shown page is below the last, so from a shown page up to the last it stays within [that page, totalPages] |
| Client.Page.SettingsLoaded | client/assets/index.js:1043 | the loaded settings replace the page's settings |
| Client.Page.SettingsSaved | client/assets/index.js:774-778 | a successful save spreads the posted part over the settings, as Settings.Apply does on the server |

## Left out

- Strings are sequences of characters. Go works on UTF-8 bytes, so the 10 MB read cap counts characters here, and byte-level UTF-8 effects are not modelled.
- Text.ToLower: folds ASCII letters only. JavaScript's `/i` without the `u` flag folds no non-ASCII character to ASCII, so the page's tests are modelled exactly. Go's strings.ToLower also folds other Unicode letters, for instance U+212A KELVIN SIGN to 'k' and U+0130 to 'i', so the server side is modelled only for names whose extension is ASCII.
- Client.SuffixIsExt, Client.ClassificationAgrees: the agreement of the page and the server holds under ASCII folding only. In the code, 'film.m\u212Av' is served as video/x-matroska by the server's table, but the page's video filter does not list it.
- Concurrency is not modelled: sync.Map, portMutex, settingsMutex, the reaper goroutine and its ticker, and runtime.GC. The code runs sequentially here, and time is an integer clock in nanoseconds.
- The torrent engine is abstract. NewClient, AddMagnet, GotInfo, Files, NewReader, Drop and Close become an Engine record of outcomes plus a counter of client numbers. A fetched subtitle file's contents are a parameter.
- The proxy mechanics are left out: the SOCKS5 dialer, url.Parse, setValue's reflection, os.Setenv, setGlobalProxy and the shared transport's reconfiguration. So is the effect of setting CheckRedirect on the shared proxy client.
- Range serving by http.ServeContent is library code; a streamed answer is only its index, content type and CORS flag.
- formatSize uses floating point, so a result's size is kept as the raw number.
- The remaining I/O is left out: the settings file, outbound HTTP to Prowlarr and Jackett, the connection tests, JSON encoding and decoding, respondWithJSON and main. So are the search handlers' empty-query and response-parsing paths; only their host and key precheck (`Search.Configured`) and their result loops are modelled.
- metainfo.Load, HashInfoBytes, UnmarshalInfo and url.QueryEscape are uninterpreted inputs: the Metainfo record and the `esc` parameter.
- The JSON `null` Go writes for an empty listing or result list is modelled as an empty sequence.
- The DOM, toasts, video.js and getLanguage's Intl display names are left out. The page model keeps only its state and pure computations.
- Client.UrlsReachTheirFile: requires the index to be at most MaxInt64, because Go's Atoi parses into a 64-bit int.
- Server.Globals.HandleTorrent: does not carry the registry invariant in its contract. Sessions.StampValid proves that the stamp keeps it.
- Server.Globals.CleanupSessions: does not carry the registry invariant in its contract. Sessions.SweepValid proves that the sweep keeps it.
- Sessions.AddTorrent: its own contract states only that a reply is written and the counter grows. The reply each failure path ends with is stated by Sessions.FailureReplies; what each path does to the registry by Sessions.FailureLeaksNothing, Sessions.SuccessStores, Sessions.TimeoutStillStores, Sessions.EmptyMagnetAnsweredTwice and Sessions.OverwriteOrphansOldSession.
- Router.Route: the 404 body lists the stored session ids joined by ", " in the order sync.Map ranges over them, which Go leaves unspecified; the model gives the set of ids.
- Router.Route: the torrent's file list is one input per request. Go calls Files() up to three times in one request; the model assumes those calls agree.
- Client.Page.ReceiveResults: the page assigns any non-null JSON object to the results, arrays or not. The model types the results as a list, so an answer that is an object but not an array is not modelled.
