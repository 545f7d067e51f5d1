/** The server's global state (the usedPorts and sessions maps, the open
    torrent clients and currentSettings of main.go) as one object of class
    Globals, and the handlers that change it step by step.  Each method is
    tied to the pure definition in Ports, Sessions, Router or Settings that
    states what it computes; the properties are proved there. */
module Server {
  import opened Wrappers
  import opened Text
  import opened Http
  import opened Ports
  import opened Settings
  import opened Sessions
  import opened Router
  import Vtt

  class Globals {
    var usedPorts: set<int>
    var sessions: map<string, Session>
    var openClients: set<nat>
    var nextClient: nat
    var settings: Settings

    /** The registry part of the state. */
    function State(): Registry
      reads this
    {
      Registry(usedPorts, sessions, openClients, nextClient)
    }

    /** A fresh server: nothing in use, default settings. */
    constructor ()
      ensures State() == EmptyRegistry && settings == Defaults
      ensures Valid(State())
    {
      usedPorts := {};
      sessions := map[];
      openClients := {};
      nextClient := 0;
      settings := Defaults;
    }

    /** getAvailablePort: up to fifty draws, the first free one recorded;
        otherwise an unrecorded port from the fallback range. */
    method GetAvailablePort(d: Draws) returns (port: int)
      requires ValidDraws(d)
      modifies this
      ensures port == Allocate(old(usedPorts), d).port
      ensures usedPorts == UsedAfter(old(usedPorts), Allocate(old(usedPorts), d))
      ensures sessions == old(sessions) && openClients == old(openClients)
      ensures nextClient == old(nextClient) && settings == old(settings)
    {
      var i := 0;
      while i < Attempts
        invariant 0 <= i <= Attempts
        invariant usedPorts == old(usedPorts)
        invariant forall j :: 0 <= j < i ==> Candidate(d.tries[j]) in usedPorts
      {
        var p := LoopBase + d.tries[i];
        if p !in usedPorts {
          usedPorts := usedPorts + {p};
          return p;
        }
        i := i + 1;
      }
      return FallbackBase + d.fallback;
    }

    /** releasePort */
    method ReleasePort(port: int)
      modifies this
      ensures usedPorts == Release(old(usedPorts), port)
      ensures sessions == old(sessions) && openClients == old(openClients)
      ensures nextClient == old(nextClient) && settings == old(settings)
    {
      usedPorts := usedPorts - {port};
    }

    /** torrent.NewClient succeeding: a new client, open. */
    method OpenClient() returns (client: nat)
      modifies this
      ensures client == old(nextClient) && nextClient == client + 1
      ensures openClients == old(openClients) + {client}
      ensures usedPorts == old(usedPorts) && sessions == old(sessions) && settings == old(settings)
    {
      client := nextClient;
      openClients := openClients + {client};
      nextClient := nextClient + 1;
    }

    /** client.Close() */
    method CloseClient(client: nat)
      modifies this
      ensures openClients == old(openClients) - {client}
      ensures usedPorts == old(usedPorts) && sessions == old(sessions)
      ensures nextClient == old(nextClient) && settings == old(settings)
    {
      openClients := openClients - {client};
    }

    /** The deferred cleanup of addTorrentHandler: it releases the port and
        closes the client unless the client was handed to a session. */
    method Deferred(client: Option<nat>, port: int)
      modifies this
      ensures client.Some? ==> usedPorts == Release(old(usedPorts), port) && openClients == old(openClients) - {client.value}
      ensures client.None? ==> usedPorts == old(usedPorts) && openClients == old(openClients)
      ensures sessions == old(sessions) && nextClient == old(nextClient) && settings == old(settings)
    {
      if client.Some? {
        ReleasePort(port);
        CloseClient(client.value);
      }
    }

    /** addTorrentHandler with initTorrentWithProxy: the replies written, in
        order, and the new registry are the ones Sessions.AddTorrent gives. */
    method AddTorrent(body: Option<string>, fetch: Fetch, d: Draws, e: Engine, now: int) returns (replies: seq<Reply>)
      requires ValidDraws(d) && Valid(State())
      modifies this
      ensures var a := Sessions.AddTorrent(old(State()), old(settings), body, fetch, d, e, now);
        State() == a.registry && replies == a.replies
      ensures settings == old(settings)
      ensures Valid(State())
    {
      AddTorrentValid(State(), settings, body, fetch, d, e, now);
      if body.None? {
        return [Reply(StatusBadRequest, "Invalid request")];
      }
      var magnet := body.value;
      replies := [];
      if magnet == "" {
        replies := replies + [Reply(StatusBadRequest, "No magnet link provided")];
      }
      var resolved := ResolveLocator(magnet, fetch);
      if resolved.Refused? {
        replies := replies + [resolved.reply];
        return;
      }
      magnet := resolved.magnet;
      if magnet == "" || !HasPrefix(magnet, "magnet:") {
        replies := replies + [Reply(StatusBadRequest, "Invalid magnet link")];
        return;
      }
      // initTorrentWithProxy
      var port := GetAvailablePort(d);
      if settings.enableProxy && !e.dialerOk {
        ReleasePort(port);
        replies := replies + [Reply(StatusInternalServerError, "Failed to create client with proxy")];
        return;
      }
      if !e.clientOk {
        ReleasePort(port);
        replies := replies + [Reply(StatusInternalServerError, "Failed to create client with proxy")];
        return;
      }
      var created := OpenClient();
      var client := Some(created);
      if e.added.None? {
        replies := replies + [Reply(StatusBadRequest, "Invalid magnet url")];
        Deferred(client, port);
        return;
      }
      if !e.gotInfo {
        replies := replies + [Reply(StatusGatewayTimeout, TimeoutMessage)];
      }
      var id := e.added.value;
      sessions := sessions[id := Session(created, port, now)];
      client := None;
      replies := replies + [Reply(StatusOK, id)];
      Deferred(client, port);
    }

    /** torrentHandler: a found session is stamped with the time of the
        request, then the request is answered as Router.Route says.  `files`
        is what session.Torrent.Files() gives during this request. */
    method HandleTorrent(path: string, format: string, files: seq<TorrentFile>, content: Option<string>, now: int)
      returns (out: Outcome)
      modifies this
      ensures out == Route(path, format, old(sessions), files, content)
      ensures PathSession(path).Some? ==> State() == Stamp(old(State()), PathSession(path).value, now)
      ensures PathSession(path).None? ==> State() == old(State())
      ensures settings == old(settings)
    {
      var parts := Split(path, '/');
      if |parts| < 5 {
        return Rejected(Reply(StatusBadRequest, "Invalid path"));
      }
      var id := parts[4];
      if id !in sessions {
        return Missing(id, sessions.Keys);
      }
      var session := sessions[id];
      sessions := sessions[id := session.(lastUsed := now)];
      if |parts| > 5 && parts[5] == "stream" {
        if |parts| < 7 {
          return Rejected(Reply(StatusBadRequest, "Invalid stream path"));
        }
        var index := Atoi(TrimSuffix(parts[6], ".vtt"));
        if index.None? {
          return Rejected(Reply(StatusBadRequest, "Invalid file index"));
        }
        var i := index.value;
        if i < 0 || i >= |files| {
          return Rejected(Reply(StatusBadRequest, "File index out of range"));
        }
        var ext := ToLower(Ext(files[i].displayPath));
        if ext == ".srt" && format == "vtt" {
          if content.None? {
            return Rejected(Reply(StatusInternalServerError, "Failed to read subtitle file"));
          }
          var c := content.value;
          if |c| > Vtt.ReadCap {
            c := c[..Vtt.ReadCap];
          }
          var vtt := Vtt.ConvertSrtToVtt(c);
          return Converted(i, vtt);
        }
        return Streamed(i, ContentType(ext), SubtitleExtension(ext));
      }
      var entries := ListFiles(files);
      return Listing(entries);
    }

    /** cleanupSessions, one tick: every session idle for more than the
        timeout is deleted while the map is ranged over, its port released
        and its client closed. */
    method CleanupSessions(now: int)
      modifies this
      ensures State() == Sweep(old(State()), now)
      ensures settings == old(settings)
    {
      ghost var start := State();
      PartialSweepNone(start, now);
      var pending := sessions.Keys;
      while pending != {}
        invariant pending <= start.sessions.Keys
        invariant State() == PartialSweep(start, now, start.sessions.Keys - pending)
        invariant settings == old(settings)
        decreases |pending|
      {
        var id :| id in pending;
        EvictIfExpired(id, now, start, start.sessions.Keys - pending);
        assert (start.sessions.Keys - pending) + {id} == start.sessions.Keys - (pending - {id});
        pending := pending - {id};
      }
      PartialSweepAll(start, now);
    }

    /** One visit of the sweep. */
    method EvictIfExpired(id: string, now: int, ghost start: Registry, ghost done: set<string>)
      requires id in start.sessions && id !in done
      requires State() == PartialSweep(start, now, done)
      modifies this
      ensures State() == PartialSweep(start, now, done + {id})
      ensures settings == old(settings)
    {
      PartialSweepStep(start, now, done, id);
      var session := sessions[id];
      if now - session.lastUsed > IdleTimeout {
        ReleasePort(session.port);
        CloseClient(session.client);
        sessions := sessions - {id};
      }
    }

    /** The three settings save handlers: the posted part is assigned in
        place and the file written; the replies are the ones Settings.Save
        gives. */
    method SaveSettings(verb: string, body: Option<Patch>, writeError: Option<string>) returns (replies: seq<Reply>)
      modifies this
      ensures var r := Save(old(settings), verb, body, writeError);
        settings == r.settings && replies == r.replies
      ensures State() == old(State())
    {
      if verb == "OPTIONS" {
        return [];
      }
      if verb != "POST" {
        return [Reply(StatusMethodNotAllowed, "Method not allowed")];
      }
      if body.None? {
        return [Reply(StatusBadRequest, "Invalid request body")];
      }
      var p := body.value;
      if p.ProxyPatch? {
        settings := settings.(enableProxy := p.enableProxy, proxyUrl := p.proxyUrl);
      } else if p.ProwlarrPatch? {
        settings := settings.(enableProwlarr := p.enableProwlarr, prowlarrHost := p.prowlarrHost,
                              prowlarrApiKey := p.prowlarrApiKey);
      } else {
        settings := settings.(enableJackett := p.enableJackett, jackettHost := p.jackettHost,
                              jackettApiKey := p.jackettApiKey);
      }
      if writeError.Some? {
        return [Reply(StatusInternalServerError, "Failed to save settings: " + writeError.value)];
      }
      return [Reply(StatusOK, SavedMessage(body.value))];
    }
  }

  // ---------------------------------------------------------------- sweep progress

  /** The registry after the sweep has visited the sessions in `done`. */
  function PartialSweep(r: Registry, now: int, done: set<string>): Registry {
    var gone := set id | id in done && id in r.sessions && Expired(r.sessions[id], now);
    Registry(
      r.usedPorts - (set id | id in gone :: r.sessions[id].port),
      map id | id in r.sessions && id !in gone :: r.sessions[id],
      r.openClients - (set id | id in gone :: r.sessions[id].client),
      r.nextClient)
  }

  /** What a visit of session `id` does: an expired session is deleted, its
      port released and its client closed. */
  function Visit(r: Registry, id: string, now: int): Registry
    requires id in r.sessions
  {
    var s := r.sessions[id];
    if Expired(s, now) then Registry(r.usedPorts - {s.port}, r.sessions - {id}, r.openClients - {s.client}, r.nextClient)
    else r
  }

  /** Visiting one more session evicts it when it has expired. */
  lemma PartialSweepStep(r: Registry, now: int, done: set<string>, id: string)
    requires id in r.sessions && id !in done
    ensures var p := PartialSweep(r, now, done);
      id in p.sessions && p.sessions[id] == r.sessions[id]
      && PartialSweep(r, now, done + {id}) == Visit(p, id, now)
  {
    var s := r.sessions[id];
    var gone := set x | x in done && x in r.sessions && Expired(r.sessions[x], now);
    var gone' := set x | x in done + {id} && x in r.sessions && Expired(r.sessions[x], now);
    if Expired(s, now) {
      assert gone' == gone + {id};
      assert (set x | x in gone' :: r.sessions[x].port) == (set x | x in gone :: r.sessions[x].port) + {s.port};
      assert (set x | x in gone' :: r.sessions[x].client) == (set x | x in gone :: r.sessions[x].client) + {s.client};
    } else {
      assert gone' == gone;
    }
  }

  /** Once every session has been visited the sweep is complete. */
  lemma PartialSweepAll(r: Registry, now: int)
    ensures PartialSweep(r, now, r.sessions.Keys) == Sweep(r, now)
  {
    var gone := set id | id in r.sessions.Keys && id in r.sessions && Expired(r.sessions[id], now);
    assert (set id | id in gone :: r.sessions[id].port) == EvictedPorts(r, now);
    assert (set id | id in gone :: r.sessions[id].client) == EvictedClients(r, now);
  }

  /** Before the first visit nothing has changed. */
  lemma PartialSweepNone(r: Registry, now: int)
    ensures PartialSweep(r, now, {}) == r
  {
  }
}
