/** The request routing of torrentHandler: /api/v1/torrent/<id> lists the
    files of a session, /api/v1/torrent/<id>/stream/<i> streams file i with a
    content type chosen by its extension, and a .srt file asked for with
    format=vtt is read (at most ReadCap characters) and transcoded. */
module Router {
  import opened Wrappers
  import opened Text
  import opened Http
  import opened Sessions
  import Vtt

  /** One element of the file listing. */
  datatype FileEntry = FileEntry(index: nat, name: string, size: int)

  /** What the handler answers.  A missing session is answered with 404, the
      id asked for and the ids of the stored sessions. */
  datatype Outcome =
    | Rejected(reply: Reply)
    | Missing(id: string, available: set<string>)
    | Listing(entries: seq<FileEntry>)
    | Streamed(index: nat, contentType: string, cors: bool)
    | Converted(index: nat, vtt: string)

  /** The Content-Type header set for a (lowercased) extension, when the
      file is served as it is. */
  function ContentType(ext: string): string {
    if ext == ".mp4" then "video/mp4"
    else if ext == ".webm" then "video/webm"
    else if ext == ".mkv" then "video/x-matroska"
    else if ext == ".avi" then "video/x-msvideo"
    else if ext == ".srt" then "text/plain"
    else if ext == ".vtt" then "text/vtt"
    else if ext == ".sub" then "text/plain"
    else "application/octet-stream"
  }

  /** Only subtitle files get Access-Control-Allow-Origin. */
  predicate SubtitleExtension(ext: string) {
    ext == ".srt" || ext == ".vtt" || ext == ".sub"
  }

  /** The listing of a session's files, in engine order. */
  function Entries(files: seq<TorrentFile>): (entries: seq<FileEntry>)
    ensures |entries| == |files|
    ensures forall k :: 0 <= k < |files| ==>
      entries[k] == FileEntry(k, files[k].displayPath, files[k].length)
  {
    seq(|files|, k requires 0 <= k < |files| => FileEntry(k, files[k].displayPath, files[k].length))
  }

  /** The file index of a stream path segment: an optional ".vtt" suffix is
      removed and the rest parsed by Atoi. */
  function FileIndex(segment: string): Option<int> {
    Atoi(TrimSuffix(segment, ".vtt"))
  }

  /** The session id of a path, when the path has enough parts. */
  function PathSession(path: string): Option<string> {
    var parts := Split(path, '/');
    if |parts| < 5 then None else Some(parts[4])
  }

  /** torrentHandler, apart from the stamp of the session.  `format` is the
      format query parameter; `files` is what the engine lists for the
      session's torrent at the time of the request; `content` is what reading
      the requested file gives (None when the read fails), used only by the
      transcoding path. */
  function Route(path: string, format: string, sessions: map<string, Session>, files: seq<TorrentFile>,
                 content: Option<string>): (out: Outcome)
    ensures out.Missing? ==> out.id !in sessions && out.available == sessions.Keys
    ensures out.Streamed? || out.Converted? ==> out.index < |files|
    ensures out.Rejected? ==> out.reply.status in {StatusBadRequest, StatusInternalServerError}
  {
    var parts := Split(path, '/');
    if |parts| < 5 then Rejected(Reply(StatusBadRequest, "Invalid path"))
    else if parts[4] !in sessions then Missing(parts[4], sessions.Keys)
    else if |parts| > 5 && parts[5] == "stream" then
      if |parts| < 7 then Rejected(Reply(StatusBadRequest, "Invalid stream path"))
      else
        match FileIndex(parts[6])
        case None => Rejected(Reply(StatusBadRequest, "Invalid file index"))
        case Some(i) =>
          if i < 0 || i >= |files| then Rejected(Reply(StatusBadRequest, "File index out of range"))
          else
            var ext := ToLower(Ext(files[i].displayPath));
            if ext == ".srt" && format == "vtt" then
              match content
              case None => Rejected(Reply(StatusInternalServerError, "Failed to read subtitle file"))
              case Some(c) => Converted(i, Vtt.Transcode(c))
            else Streamed(i, ContentType(ext), SubtitleExtension(ext))
    else Listing(Entries(files))
  }

  /** The listing loop of torrentHandler. */
  method ListFiles(files: seq<TorrentFile>) returns (entries: seq<FileEntry>)
    ensures entries == Entries(files)
  {
    entries := [];
    var i := 0;
    while i < |files|
      invariant 0 <= i <= |files|
      invariant |entries| == i
      invariant forall k :: 0 <= k < i ==> entries[k] == FileEntry(k, files[k].displayPath, files[k].length)
    {
      entries := entries + [FileEntry(i, files[i].displayPath, files[i].length)];
      i := i + 1;
    }
  }

  // ---------------------------------------------------------------- properties

  /** A file is only ever served or converted when it exists: the session
      was found and the index is in range of the engine's current list. */
  lemma ServedIndexInRange(path: string, format: string, sessions: map<string, Session>, files: seq<TorrentFile>,
                           content: Option<string>)
    ensures match Route(path, format, sessions, files, content)
      case Streamed(i, _, _) => PathSession(path).Some? && PathSession(path).value in sessions && i < |files|
      case Converted(i, _) => PathSession(path).Some? && PathSession(path).value in sessions && i < |files|
      case _ => true
  {
  }

  /** The checks in the order torrentHandler makes them. */
  lemma RouteChecks(path: string, format: string, sessions: map<string, Session>, files: seq<TorrentFile>,
                    content: Option<string>)
    ensures var parts := Split(path, '/');
      var out := Route(path, format, sessions, files, content);
      && (|parts| < 5 ==> out == Rejected(Reply(StatusBadRequest, "Invalid path")))
      && (|parts| >= 5 && parts[4] !in sessions ==> out == Missing(parts[4], sessions.Keys))
      && (|parts| >= 5 && parts[4] in sessions && (|parts| <= 5 || parts[5] != "stream") ==>
            out == Listing(Entries(files)))
      && (|parts| == 6 && parts[4] in sessions && parts[5] == "stream" ==>
            out == Rejected(Reply(StatusBadRequest, "Invalid stream path")))
      && (|parts| >= 7 && parts[4] in sessions && parts[5] == "stream" && FileIndex(parts[6]).None? ==>
            out == Rejected(Reply(StatusBadRequest, "Invalid file index")))
      && (|parts| >= 7 && parts[4] in sessions && parts[5] == "stream" && FileIndex(parts[6]).Some?
          && !(0 <= FileIndex(parts[6]).value < |files|) ==>
            out == Rejected(Reply(StatusBadRequest, "File index out of range")))
  {
  }

  /** The content-type table: videos get their video type, the three
      subtitle extensions their text type, anything else is served as
      application/octet-stream; exactly the subtitle extensions are marked
      for the CORS header. */
  lemma ContentTypeTable(ext: string)
    ensures ext == ".mp4" ==> ContentType(ext) == "video/mp4"
    ensures ext == ".webm" ==> ContentType(ext) == "video/webm"
    ensures ext == ".mkv" ==> ContentType(ext) == "video/x-matroska"
    ensures ext == ".avi" ==> ContentType(ext) == "video/x-msvideo"
    ensures ext == ".srt" ==> ContentType(ext) == "text/plain"
    ensures ext == ".vtt" ==> ContentType(ext) == "text/vtt"
    ensures ext == ".sub" ==> ContentType(ext) == "text/plain"
    ensures ext !in {".mp4", ".webm", ".mkv", ".avi", ".srt", ".vtt", ".sub"} ==> ContentType(ext) == "application/octet-stream"
    ensures SubtitleExtension(ext) <==> ext in {".srt", ".vtt", ".sub"}
  {
  }

  /** A file served as it is gets the content type of its lower-cased
      extension, and the CORS header exactly when that extension is a
      subtitle one; an .srt file is served as it is only without
      format=vtt. */
  lemma StreamedHeaders(path: string, format: string, sessions: map<string, Session>, files: seq<TorrentFile>,
                        content: Option<string>)
    requires Route(path, format, sessions, files, content).Streamed?
    ensures var out := Route(path, format, sessions, files, content);
      var ext := ToLower(Ext(files[out.index].displayPath));
      && out.contentType == ContentType(ext)
      && (out.cors <==> ext in {".srt", ".vtt", ".sub"})
      && (ext == ".srt" ==> format != "vtt")
  {
  }

  /** The transcoding path answers with a WebVTT text. */
  lemma ConvertedIsVtt(path: string, format: string, sessions: map<string, Session>, files: seq<TorrentFile>,
                       content: Option<string>)
    requires Route(path, format, sessions, files, content).Converted?
    ensures format == "vtt" && content.Some?
    ensures HasPrefix(Route(path, format, sessions, files, content).vtt, Vtt.Header)
    ensures ToLower(Ext(files[Route(path, format, sessions, files, content).index].displayPath)) == ".srt"
  {
  }
}
