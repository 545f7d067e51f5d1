/** The settings record shared by the handlers (Settings in main.go), the
    three partial updates the settings pages post, and the choice of HTTP
    client for outbound calls (createSelectiveProxyClient). */
module Settings {
  import opened Wrappers
  import opened Http

  datatype Settings = Settings(
    enableProxy: bool, proxyUrl: string,
    enableProwlarr: bool, prowlarrHost: string, prowlarrApiKey: string,
    enableJackett: bool, jackettHost: string, jackettApiKey: string)

  /** The settings written when no settings file exists. */
  const Defaults: Settings := Settings(false, "", false, "", "", false, "", "")

  /** The bodies of the three save requests (ProxySettings, ProwlarrSettings
      and JackettSettings in main.go). */
  datatype Patch =
    | ProxyPatch(enableProxy: bool, proxyUrl: string)
    | ProwlarrPatch(enableProwlarr: bool, prowlarrHost: string, prowlarrApiKey: string)
    | JackettPatch(enableJackett: bool, jackettHost: string, jackettApiKey: string)

  /** The part of the settings each save request owns. */
  function ProxyPart(s: Settings): Patch {
    ProxyPatch(s.enableProxy, s.proxyUrl)
  }

  function ProwlarrPart(s: Settings): Patch {
    ProwlarrPatch(s.enableProwlarr, s.prowlarrHost, s.prowlarrApiKey)
  }

  function JackettPart(s: Settings): Patch {
    JackettPatch(s.enableJackett, s.jackettHost, s.jackettApiKey)
  }

  function Part(s: Settings, p: Patch): Patch {
    match p
    case ProxyPatch(_, _) => ProxyPart(s)
    case ProwlarrPatch(_, _, _) => ProwlarrPart(s)
    case JackettPatch(_, _, _) => JackettPart(s)
  }

  /** Two patches post the same part of the settings. */
  predicate SamePart(p: Patch, q: Patch) {
    p.ProxyPatch? == q.ProxyPatch? && p.ProwlarrPatch? == q.ProwlarrPatch?
  }

  /** The field assignments of a save handler: the patch's own fields take
      the posted values, the other two parts are untouched. */
  function Apply(s: Settings, p: Patch): (r: Settings)
    ensures Part(r, p) == p
    ensures !p.ProxyPatch? ==> ProxyPart(r) == ProxyPart(s)
    ensures !p.ProwlarrPatch? ==> ProwlarrPart(r) == ProwlarrPart(s)
    ensures !p.JackettPatch? ==> JackettPart(r) == JackettPart(s)
  {
    match p
    case ProxyPatch(e, u) => s.(enableProxy := e, proxyUrl := u)
    case ProwlarrPatch(e, h, k) => s.(enableProwlarr := e, prowlarrHost := h, prowlarrApiKey := k)
    case JackettPatch(e, h, k) => s.(enableJackett := e, jackettHost := h, jackettApiKey := k)
  }

  /** The success message of each save handler. */
  function SavedMessage(p: Patch): string {
    match p
    case ProxyPatch(_, _) => "Proxy settings saved successfully"
    case ProwlarrPatch(_, _, _) => "Prowlarr settings saved successfully"
    case JackettPatch(_, _, _) => "Jackett settings saved successfully"
  }

  datatype Saved = Saved(settings: Settings, replies: seq<Reply>)

  /** A save handler.  `verb` is the request method, `body` is the decoded request body (None when it does
      not decode); `writeError` is the error of writing the settings file,
      if any.  The fields are assigned before the file is written, so a
      failed write still changes the settings in memory. */
  function Save(s: Settings, verb: string, body: Option<Patch>, writeError: Option<string>): (r: Saved)
    ensures verb == "OPTIONS" ==> r == Saved(s, [])
    ensures verb != "OPTIONS" && verb != "POST" ==> r == Saved(s, [Reply(StatusMethodNotAllowed, "Method not allowed")])
    ensures r.settings != s ==> verb == "POST" && body.Some?
    ensures |r.replies| <= 1
  {
    if verb == "OPTIONS" then Saved(s, [])
    else if verb != "POST" then Saved(s, [Reply(StatusMethodNotAllowed, "Method not allowed")])
    else if body.None? then Saved(s, [Reply(StatusBadRequest, "Invalid request body")])
    else
      var next := Apply(s, body.value);
      match writeError
      case Some(e) => Saved(next, [Reply(StatusInternalServerError, "Failed to save settings: " + e)])
      case None => Saved(next, [Reply(StatusOK, SavedMessage(body.value))])
  }

  /** The HTTP client used for outbound calls: a direct client with a
      30-second timeout, or the one shared client that dials through the
      SOCKS5 proxy named by the settings. */
  datatype HttpClient = DirectClient(timeoutSeconds: nat) | SharedProxyClient(proxyUrl: string)

  function SelectiveClient(s: Settings): (c: HttpClient)
    ensures c.DirectClient? <==> !s.enableProxy
    ensures c.SharedProxyClient? ==> c.proxyUrl == s.proxyUrl
  {
    if !s.enableProxy then DirectClient(30) else SharedProxyClient(s.proxyUrl)
  }

  // ---------------------------------------------------------------- properties

  /** A posted save that decodes gives the settings the posted part, whether
      or not the file could be written. */
  lemma SaveAssignsBeforeWriting(s: Settings, p: Patch, writeError: Option<string>)
    ensures var r := Save(s, "POST", Some(p), writeError);
      r.settings == Apply(s, p) && Part(r.settings, p) == p
      && (r.replies[0].status == StatusOK <==> writeError.None?)
  {
  }

  /** Saves of different parts commute. */
  lemma SavesOfDifferentPartsCommute(s: Settings, p: Patch, q: Patch)
    requires !SamePart(p, q)
    ensures Apply(Apply(s, p), q) == Apply(Apply(s, q), p)
  {
  }

  /** Of two saves of the same part the later one wins. */
  lemma LaterSaveWins(s: Settings, p: Patch, q: Patch)
    requires SamePart(p, q)
    ensures Apply(Apply(s, p), q) == Apply(s, q)
  {
  }

  /** Saving the current value of a part changes nothing. */
  lemma SaveCurrentIsNoOp(s: Settings, p: Patch)
    ensures Apply(s, Part(s, p)) == s
  {
  }

  /** The defaults route nothing through the proxy and enable no search
      service. */
  lemma DefaultsAreDirect()
    ensures SelectiveClient(Defaults) == DirectClient(30)
    ensures !Defaults.enableProwlarr && !Defaults.enableJackett
  {
  }
}
