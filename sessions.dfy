/** The session registry: the torrent clients the server keeps alive, each
    bound to the listen port it was given and stamped with the last time it
    was used (the sessions and usedPorts maps of main.go), the creation flow
    of addTorrentHandler and initTorrentWithProxy, and the idle sweep of
    cleanupSessions.

    The torrent engine is abstract: a client is a number handed out from a
    counter, and what the engine does for one request is an Engine record.
    Time is an integer number of nanoseconds. */
module Sessions {
  import opened Wrappers
  import opened Text
  import opened Http
  import opened Ports
  import opened Settings

  const Minute: int := 60 * 1000 * 1000 * 1000
  /** Sessions idle for longer than this are evicted. */
  const IdleTimeout: int := 15 * Minute

  /** A file of a torrent, as the engine lists it. */
  datatype TorrentFile = TorrentFile(displayPath: string, length: int)

  /** TorrentSession: the client, its listen port and when it was last used.
      The torrent's files are not part of it: the engine is asked for them
      on every request (Router.Route takes them as an input). */
  datatype Session = Session(client: nat, port: int, lastUsed: int)

  /** Everything the creation, lookup and sweep code shares: the ports in
      use, the session map keyed by info hash, the clients not yet closed and
      the number the next client gets. */
  datatype Registry = Registry(
    usedPorts: set<int>,
    sessions: map<string, Session>,
    openClients: set<nat>,
    nextClient: nat)

  const EmptyRegistry: Registry := Registry({}, map[], {}, 0)

  /** What the registry keeps true between requests: the allocator only
      records loop ports; every session holds a recorded loop port or an
      unrecorded fallback port, and an open client; no two sessions share a
      client or a loop port; clients are numbered below the counter. */
  predicate Valid(r: Registry) {
    && (forall p :: p in r.usedPorts ==> InLoopRange(p))
    && (forall id :: id in r.sessions ==>
          && (r.sessions[id].port in r.usedPorts || InFallbackRange(r.sessions[id].port))
          && r.sessions[id].client in r.openClients)
    && (forall id, id' :: id in r.sessions && id' in r.sessions && id != id' ==>
          && r.sessions[id].client != r.sessions[id'].client
          && (InLoopRange(r.sessions[id].port) ==> r.sessions[id].port != r.sessions[id'].port))
    && (forall c :: c in r.openClients ==> c < r.nextClient)
  }

  // ---------------------------------------------------------------- lookup

  /** The lookup of torrentHandler stamps a found session with the time of
      the request. */
  function Stamp(r: Registry, id: string, now: int): (r': Registry)
    ensures r'.usedPorts == r.usedPorts && r'.openClients == r.openClients && r'.nextClient == r.nextClient
    ensures r'.sessions.Keys == r.sessions.Keys
    ensures id in r.sessions ==> r'.sessions[id] == r.sessions[id].(lastUsed := now)
    ensures forall other :: other in r.sessions && other != id ==> r'.sessions[other] == r.sessions[other]
  {
    if id in r.sessions then r.(sessions := r.sessions[id := r.sessions[id].(lastUsed := now)]) else r
  }

  // ---------------------------------------------------------------- sweep

  /** cleanupSessions evicts a session idle for strictly more than the
      timeout. */
  predicate Expired(s: Session, now: int) {
    now - s.lastUsed > IdleTimeout
  }

  function Survivors(r: Registry, now: int): map<string, Session> {
    map id | id in r.sessions && !Expired(r.sessions[id], now) :: r.sessions[id]
  }

  function EvictedPorts(r: Registry, now: int): set<int> {
    set id | id in r.sessions && Expired(r.sessions[id], now) :: r.sessions[id].port
  }

  function EvictedClients(r: Registry, now: int): set<nat> {
    set id | id in r.sessions && Expired(r.sessions[id], now) :: r.sessions[id].client
  }

  /** One sweep: every expired session is deleted, its port released and
      its client closed. */
  function Sweep(r: Registry, now: int): Registry {
    Registry(
      r.usedPorts - EvictedPorts(r, now),
      Survivors(r, now),
      r.openClients - EvictedClients(r, now),
      r.nextClient)
  }

  // ---------------------------------------------------------------- locators

  /** What following an http locator gave: the request could not be built,
      the request failed, or a response with its status and Location. */
  datatype Fetch = BadUrl(err: string) | FetchFailed(err: string) | Fetched(status: int, location: string)

  datatype Resolved = Locator(magnet: string) | Refused(reply: Reply)

  /** The http branch of addTorrentHandler: an http locator is fetched
      without following redirects; a 3xx answer must point at a magnet link,
      which replaces the locator; any other answer leaves the locator as it
      was. */
  function ResolveLocator(given: string, fetch: Fetch): (res: Resolved)
    ensures !HasPrefix(given, "http") ==> res == Locator(given)
    ensures res.Locator? ==> res.magnet == given || HasPrefix(res.magnet, "magnet:")
    ensures res.Refused? ==> res.reply.status == StatusBadRequest
  {
    if !HasPrefix(given, "http") then Locator(given)
    else
      match fetch
      case BadUrl(e) => Refused(Reply(StatusBadRequest, "Invalid URL: " + e))
      case FetchFailed(e) => Refused(Reply(StatusBadRequest, "Failed to download: " + e))
      case Fetched(status, location) =>
        if 300 <= status < 400 then
          if HasPrefix(location, "magnet:") then Locator(location)
          else Refused(Reply(StatusBadRequest, "URL redirects to non-magnet content"))
        else Locator(given)
  }

  /** The check every locator has to pass before a client is created. */
  predicate AcceptableMagnet(m: string) {
    m != "" && HasPrefix(m, "magnet:")
  }

  // ---------------------------------------------------------------- creation

  /** What the engine does for one request: whether the SOCKS5 dialer could
      be created (asked only with the proxy enabled), whether the client
      could be created, the info hash of the added torrent (None when
      AddMagnet fails), and whether its info arrived within three minutes. */
  datatype Engine = Engine(dialerOk: bool, clientOk: bool, added: Option<string>, gotInfo: bool)

  datatype Added = Added(registry: Registry, replies: seq<Reply>)

  const TimeoutMessage: string := "Timeout getting info - proxy might be blocking BitTorrent traffic"

  /** addTorrentHandler together with initTorrentWithProxy.  `body` is the
      magnet of the decoded request (None when the body does not decode),
      `fetch` what following an http locator gives, `d` the random draws of
      the port allocator, `e` the engine, `now` the clock when the session is
      stored, which on the metadata path is after the wait for the info. */
  function AddTorrent(r: Registry, s: Settings, body: Option<string>, fetch: Fetch, d: Draws, e: Engine, now: int): (a: Added)
    requires ValidDraws(d)
    ensures |a.replies| >= 1
    ensures a.registry.nextClient >= r.nextClient
  {
    if body.None? then Added(r, [Reply(StatusBadRequest, "Invalid request")])
    else
      var given := body.value;
      var early := if given == "" then [Reply(StatusBadRequest, "No magnet link provided")] else [];
      match ResolveLocator(given, fetch)
      case Refused(reply) => Added(r, early + [reply])
      case Locator(magnet) =>
        if !AcceptableMagnet(magnet) then Added(r, early + [Reply(StatusBadRequest, "Invalid magnet link")])
        else
          var g := Allocate(r.usedPorts, d);
          var used := UsedAfter(r.usedPorts, g);
          var released := Release(used, g.port);
          if (s.enableProxy && !e.dialerOk) || !e.clientOk then
            Added(r.(usedPorts := released), early + [Reply(StatusInternalServerError, "Failed to create client with proxy")])
          else
            var client := r.nextClient;
            if e.added.None? then
              // the deferred cleanup releases the port and closes the client
              Added(r.(usedPorts := released, nextClient := client + 1),
                    early + [Reply(StatusBadRequest, "Invalid magnet url")])
            else
              var id := e.added.value;
              var waited := if e.gotInfo then [] else [Reply(StatusGatewayTimeout, TimeoutMessage)];
              Added(Registry(used, r.sessions[id := Session(client, g.port, now)],
                             r.openClients + {client}, client + 1),
                    early + waited + [Reply(StatusOK, id)])
  }

  /** The HTTP client an http locator is fetched with. */
  function FetchClient(s: Settings, given: string): (c: Option<HttpClient>)
    ensures c.Some? <==> HasPrefix(given, "http")
    ensures c.Some? ==> c.value == SelectiveClient(s)
  {
    if HasPrefix(given, "http") then Some(SelectiveClient(s)) else None
  }

  // ---------------------------------------------------------------- properties

  lemma EmptyRegistryValid()
    ensures Valid(EmptyRegistry)
  {
  }

  /** A creation request that fails leaves the registry as it was, except
      for the client counter: the port it was given is released and the
      client it opened is closed. */
  lemma {:induction false} FailureLeaksNothing(r: Registry, s: Settings, body: Option<string>, fetch: Fetch, d: Draws, e: Engine, now: int)
    requires Valid(r) && ValidDraws(d)
    requires var a := AddTorrent(r, s, body, fetch, d, e, now); a.replies[|a.replies| - 1].status != StatusOK
    ensures var a := AddTorrent(r, s, body, fetch, d, e, now);
      a.registry.usedPorts == r.usedPorts && a.registry.sessions == r.sessions
      && a.registry.openClients == r.openClients
  {
    var g := Allocate(r.usedPorts, d);
    if !g.recorded {
      assert !InLoopRange(g.port);
      assert g.port !in r.usedPorts;
    }
  }

  /** A request that succeeds stores the new session under the info hash,
      with the port it was given, which stays in use, and a fresh client. */
  lemma SuccessStores(r: Registry, s: Settings, body: Option<string>, fetch: Fetch, d: Draws, e: Engine, now: int)
    requires ValidDraws(d)
    requires var a := AddTorrent(r, s, body, fetch, d, e, now); a.replies[|a.replies| - 1].status == StatusOK
    ensures e.added.Some?
    ensures var a := AddTorrent(r, s, body, fetch, d, e, now);
      var g := Allocate(r.usedPorts, d);
      && a.registry.sessions == r.sessions[e.added.value := Session(r.nextClient, g.port, now)]
      && a.registry.usedPorts == UsedAfter(r.usedPorts, g)
      && a.registry.openClients == r.openClients + {r.nextClient}
      && a.replies[|a.replies| - 1] == Reply(StatusOK, e.added.value)
  {
  }

  /** The reply each failure path ends with: a body that does not decode,
      a refused http locator, a locator that is not a magnet link, a client
      that cannot be created, and a magnet the engine does not add. */
  lemma FailureReplies(r: Registry, s: Settings, body: Option<string>, fetch: Fetch, d: Draws, e: Engine, now: int)
    requires ValidDraws(d)
    ensures var a := AddTorrent(r, s, body, fetch, d, e, now);
      var last := a.replies[|a.replies| - 1];
      && (body.None? ==> a.replies == [Reply(StatusBadRequest, "Invalid request")])
      && (body.Some? && ResolveLocator(body.value, fetch).Refused? ==>
            last == ResolveLocator(body.value, fetch).reply)
      && (body.Some? && ResolveLocator(body.value, fetch).Locator?
          && !AcceptableMagnet(ResolveLocator(body.value, fetch).magnet) ==>
            last == Reply(StatusBadRequest, "Invalid magnet link"))
      && (body.Some? && ResolveLocator(body.value, fetch).Locator?
          && AcceptableMagnet(ResolveLocator(body.value, fetch).magnet)
          && ((s.enableProxy && !e.dialerOk) || !e.clientOk) ==>
            last == Reply(StatusInternalServerError, "Failed to create client with proxy"))
      && (body.Some? && ResolveLocator(body.value, fetch).Locator?
          && AcceptableMagnet(ResolveLocator(body.value, fetch).magnet)
          && (!s.enableProxy || e.dialerOk) && e.clientOk && e.added.None? ==>
            last == Reply(StatusBadRequest, "Invalid magnet url"))
      && (body.Some? && body.value != "" ==> |a.replies| == 1 + (if last.status == StatusOK && !e.gotInfo then 1 else 0))
  {
  }

  /** The client receives status 200 exactly when a non-empty locator led
      to a stored session whose info arrived in time; a stored session after
      a timeout is reported to the client as a 504. */
  lemma OkSentIffCleanSuccess(r: Registry, s: Settings, body: Option<string>, fetch: Fetch, d: Draws, e: Engine, now: int)
    requires ValidDraws(d)
    ensures var a := AddTorrent(r, s, body, fetch, d, e, now);
      Sent(a.replies).status == StatusOK
      <==> body.Some? && body.value != "" && a.replies[|a.replies| - 1].status == StatusOK && e.gotInfo
  {
  }

  /** The no-magnet check does not return: an empty locator is written to
      twice and changes nothing, so the client receives one 400 response
      carrying both error bodies. */
  lemma EmptyMagnetAnsweredTwice(r: Registry, s: Settings, fetch: Fetch, d: Draws, e: Engine, now: int)
    requires ValidDraws(d)
    ensures AddTorrent(r, s, Some(""), fetch, d, e, now)
         == Added(r, [Reply(StatusBadRequest, "No magnet link provided"), Reply(StatusBadRequest, "Invalid magnet link")])
    ensures Sent(AddTorrent(r, s, Some(""), fetch, d, e, now).replies)
         == Response(StatusBadRequest, ["No magnet link provided", "Invalid magnet link"])
  {
    var w := [Reply(StatusBadRequest, "No magnet link provided"), Reply(StatusBadRequest, "Invalid magnet link")];
    assert Sent(w).bodies == ["No magnet link provided", "Invalid magnet link"];
  }

  /** The timeout branch does not return: when the info does not arrive the
      504 is written and the session is still stored, then the 200 is
      written.  The client receives status 504 with the timeout body followed
      by the session id, while the session and its port stay until the
      sweep. */
  lemma TimeoutStillStores(r: Registry, s: Settings, magnet: string, d: Draws, e: Engine, now: int)
    requires ValidDraws(d)
    requires AcceptableMagnet(magnet)
    requires !s.enableProxy || e.dialerOk
    requires e.clientOk && e.added.Some? && !e.gotInfo
    ensures var a := AddTorrent(r, s, Some(magnet), BadUrl(""), d, e, now);
      && a.replies == [Reply(StatusGatewayTimeout, TimeoutMessage), Reply(StatusOK, e.added.value)]
      && Sent(a.replies) == Response(StatusGatewayTimeout, [TimeoutMessage, e.added.value])
      && e.added.value in a.registry.sessions
      && a.registry.sessions[e.added.value].port == Allocate(r.usedPorts, d).port
  {
    assert !HasPrefix(magnet, "http") by {
      assert magnet[..7] == "magnet:";
      assert magnet[3] != "http"[3];
    }
  }

  /** Storing under an info hash that is already present replaces the old
      session without closing its client or releasing its port. */
  lemma OverwriteOrphansOldSession(r: Registry, s: Settings, body: Option<string>, fetch: Fetch, d: Draws, e: Engine, now: int)
    requires Valid(r) && ValidDraws(d)
    requires var a := AddTorrent(r, s, body, fetch, d, e, now); a.replies[|a.replies| - 1].status == StatusOK
    requires e.added.Some? && e.added.value in r.sessions
    ensures var a := AddTorrent(r, s, body, fetch, d, e, now);
      var prior := r.sessions[e.added.value];
      && prior.client in a.registry.openClients
      && (prior.port in r.usedPorts ==> prior.port in a.registry.usedPorts)
      && forall id :: id in a.registry.sessions ==> a.registry.sessions[id].client != prior.client
  {
    SuccessStores(r, s, body, fetch, d, e, now);
    var prior := r.sessions[e.added.value];
    var a := AddTorrent(r, s, body, fetch, d, e, now);
    forall id | id in a.registry.sessions
      ensures a.registry.sessions[id].client != prior.client
    {
      if id == e.added.value {
        assert a.registry.sessions[id].client == r.nextClient;
      } else {
        assert a.registry.sessions[id] == r.sessions[id];
      }
    }
  }

  /** Creation keeps the registry valid. */
  lemma {:induction false} AddTorrentValid(r: Registry, s: Settings, body: Option<string>, fetch: Fetch, d: Draws, e: Engine, now: int)
    requires Valid(r) && ValidDraws(d)
    ensures Valid(AddTorrent(r, s, body, fetch, d, e, now).registry)
  {
    var a := AddTorrent(r, s, body, fetch, d, e, now);
    if a.replies[|a.replies| - 1].status != StatusOK {
      FailureLeaksNothing(r, s, body, fetch, d, e, now);
      assert a.registry.nextClient >= r.nextClient;
    } else {
      SuccessStores(r, s, body, fetch, d, e, now);
      var g := Allocate(r.usedPorts, d);
      AllocateMarksOnlyItsPort(r.usedPorts, d);
      var id0 := e.added.value;
      var r' := a.registry;
      forall id | id in r'.sessions
        ensures (r'.sessions[id].port in r'.usedPorts || InFallbackRange(r'.sessions[id].port))
        ensures r'.sessions[id].client in r'.openClients
      {
        if id != id0 {
          assert r'.sessions[id] == r.sessions[id];
        }
      }
      forall id, id' | id in r'.sessions && id' in r'.sessions && id != id'
        ensures r'.sessions[id].client != r'.sessions[id'].client
        ensures InLoopRange(r'.sessions[id].port) ==> r'.sessions[id].port != r'.sessions[id'].port
      {
        if id == id0 {
          assert r'.sessions[id'] == r.sessions[id'];
          assert r.sessions[id'].client < r.nextClient;
          if InLoopRange(g.port) {
            assert g.recorded;
            assert g.port !in r.usedPorts;
          }
        } else if id' == id0 {
          assert r'.sessions[id] == r.sessions[id];
          assert r.sessions[id].client < r.nextClient;
          if InLoopRange(r.sessions[id].port) {
            assert r.sessions[id].port in r.usedPorts;
          }
        } else {
          assert r'.sessions[id] == r.sessions[id];
          assert r'.sessions[id'] == r.sessions[id'];
        }
      }
    }
  }

  /** A sweep deletes exactly the sessions idle for more than fifteen
      minutes and leaves the others, with their stamps, as they were. */
  lemma SweepEvictsExactlyExpired(r: Registry, now: int)
    ensures forall id :: id in Sweep(r, now).sessions <==> id in r.sessions && now - r.sessions[id].lastUsed <= IdleTimeout
    ensures forall id :: id in Sweep(r, now).sessions ==> Sweep(r, now).sessions[id] == r.sessions[id]
  {
  }

  /** A session idle for exactly fifteen minutes is kept. */
  lemma SweepKeepsBoundary(r: Registry, id: string, now: int)
    requires id in r.sessions && now == r.sessions[id].lastUsed + IdleTimeout
    ensures id in Sweep(r, now).sessions
  {
  }

  /** A sweep releases the port of every evicted session, closes its
      client, and changes the status of no other port. */
  lemma SweepReleasesEvicted(r: Registry, now: int)
    ensures forall id :: id in r.sessions && Expired(r.sessions[id], now) ==>
      r.sessions[id].port !in Sweep(r, now).usedPorts && r.sessions[id].client !in Sweep(r, now).openClients
    ensures forall p :: p !in EvictedPorts(r, now) ==> (p in Sweep(r, now).usedPorts <==> p in r.usedPorts)
  {
    forall id | id in r.sessions && Expired(r.sessions[id], now)
      ensures r.sessions[id].port in EvictedPorts(r, now) && r.sessions[id].client in EvictedClients(r, now)
    {
    }
  }

  /** A sweep keeps the registry valid. */
  lemma SweepValid(r: Registry, now: int)
    requires Valid(r)
    ensures Valid(Sweep(r, now))
  {
    var r' := Sweep(r, now);
    forall id | id in r'.sessions
      ensures r'.sessions[id].port in r'.usedPorts || InFallbackRange(r'.sessions[id].port)
      ensures r'.sessions[id].client in r'.openClients
    {
      var s := r.sessions[id];
      assert r'.sessions[id] == s && !Expired(s, now);
      forall other | other in r.sessions && Expired(r.sessions[other], now)
        ensures r.sessions[other].client != s.client
        ensures InLoopRange(s.port) ==> r.sessions[other].port != s.port
      {
        assert other != id;
      }
    }
  }

  /** Stamping keeps the registry valid, and a session stamped now survives
      a sweep at the same time. */
  lemma StampValid(r: Registry, id: string, now: int)
    requires Valid(r)
    ensures Valid(Stamp(r, id, now))
    ensures id in r.sessions ==> id in Sweep(Stamp(r, id, now), now).sessions
  {
    var r' := Stamp(r, id, now);
    forall a, b | a in r'.sessions && b in r'.sessions && a != b
      ensures r'.sessions[a].client != r'.sessions[b].client
      ensures InLoopRange(r'.sessions[a].port) ==> r'.sessions[a].port != r'.sessions[b].port
    {
      assert r'.sessions[a].client == r.sessions[a].client && r'.sessions[a].port == r.sessions[a].port;
      assert r'.sessions[b].client == r.sessions[b].client && r'.sessions[b].port == r.sessions[b].port;
    }
  }

  /** An http locator is used only when its answer is a redirect to a
      magnet link: then that link replaces it. */
  lemma HttpLocatorNeedsMagnetRedirect(given: string, fetch: Fetch)
    requires HasPrefix(given, "http")
    ensures var res := ResolveLocator(given, fetch);
      res.Locator? && AcceptableMagnet(res.magnet)
      <==> fetch.Fetched? && 300 <= fetch.status < 400 && HasPrefix(fetch.location, "magnet:")
  {
    var res := ResolveLocator(given, fetch);
    if res.Locator? && res.magnet == given && !(fetch.Fetched? && 300 <= fetch.status < 400) {
      assert given[..4] == "http";
      assert !HasPrefix(given, "magnet:") by {
        if |given| >= 7 {
          assert given[0] == 'h';
          assert given[..7][0] == given[0];
        }
      }
    }
    if fetch.Fetched? && 300 <= fetch.status < 400 && HasPrefix(fetch.location, "magnet:") {
      assert fetch.location[..7] == "magnet:";
      assert fetch.location != "";
    }
  }
}
