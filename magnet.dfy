/** The magnet link built by convertTorrentToMagnetHandler from a parsed
    .torrent file, in the form of BEP 9 ("Extension for Peers to Send
    Metadata Files", section "Magnet URI format"): the exact topic
    "xt=urn:btih:<info hash>", then "dn=<name>" when the info dictionary can
    be read, then one "tr=<tracker>" per tracker of the announce list, tier by
    tier.  url.QueryEscape is a parameter `esc`. */
module Magnet {
  import opened Wrappers
  import opened Text
  import opened Http

  const Scheme: string := "magnet:?xt=urn:btih:"

  /** The trackers of the announce list, tier by tier, in order. */
  function Trackers(tiers: seq<seq<string>>): seq<string>
    decreases |tiers|
  {
    if |tiers| == 0 then [] else Trackers(tiers[..|tiers| - 1]) + tiers[|tiers| - 1]
  }

  /** "&tr=" + esc(t) for every tracker t. */
  function TrackerSuffix(trackers: seq<string>, esc: string -> string): string
    decreases |trackers|
  {
    if |trackers| == 0 then "" else "&tr=" + esc(trackers[0]) + TrackerSuffix(trackers[1..], esc)
  }

  /** The magnet link for an info hash, the torrent name (None when the info
      dictionary does not unmarshal) and the announce list. */
  function MagnetUri(hash: string, name: Option<string>, tiers: seq<seq<string>>, esc: string -> string): string {
    Scheme + hash + (if name.Some? then "&dn=" + esc(name.value) else "") + TrackerSuffix(Trackers(tiers), esc)
  }

  /** The parameters of the link, as "key=value" texts. */
  function TrackerParams(trackers: seq<string>, esc: string -> string): (ps: seq<string>)
    ensures |ps| == |trackers|
    ensures forall k :: 0 <= k < |trackers| ==> ps[k] == "tr=" + esc(trackers[k])
  {
    seq(|trackers|, k requires 0 <= k < |trackers| => "tr=" + esc(trackers[k]))
  }

  function Params(hash: string, name: Option<string>, tiers: seq<seq<string>>, esc: string -> string): seq<string> {
    [Scheme + hash] + (if name.Some? then ["dn=" + esc(name.value)] else []) + TrackerParams(Trackers(tiers), esc)
  }

  lemma TrackerSuffixSnoc(trackers: seq<string>, t: string, esc: string -> string)
    ensures TrackerSuffix(trackers + [t], esc) == TrackerSuffix(trackers, esc) + ("&tr=" + esc(t))
    decreases |trackers|
  {
    if |trackers| == 0 {
      assert [t][1..] == [];
    } else {
      assert (trackers + [t])[1..] == trackers[1..] + [t];
      TrackerSuffixSnoc(trackers[1..], t, esc);
      ConcatAssoc("&tr=" + esc(trackers[0]), TrackerSuffix(trackers[1..], esc), "&tr=" + esc(t));
    }
  }

  /** The handler's tracker loops. */
  method BuildMagnet(hash: string, name: Option<string>, tiers: seq<seq<string>>, esc: string -> string)
    returns (magnet: string)
    ensures magnet == MagnetUri(hash, name, tiers, esc)
  {
    magnet := Scheme + hash;
    if name.Some? {
      magnet := magnet + ("&dn=" + esc(name.value));
    }
    ghost var head := magnet;
    var i := 0;
    while i < |tiers|
      invariant 0 <= i <= |tiers|
      invariant magnet == head + TrackerSuffix(Trackers(tiers[..i]), esc)
    {
      var tier := tiers[i];
      ghost var done := Trackers(tiers[..i]);
      var j := 0;
      assert done + tier[..0] == done;
      while j < |tier|
        invariant 0 <= j <= |tier|
        invariant magnet == head + TrackerSuffix(done + tier[..j], esc)
      {
        TrackerSuffixSnoc(done + tier[..j], tier[j], esc);
        assert done + tier[..j + 1] == (done + tier[..j]) + [tier[j]];
        ConcatAssoc(head, TrackerSuffix(done + tier[..j], esc), "&tr=" + esc(tier[j]));
        magnet := magnet + ("&tr=" + esc(tier[j]));
        j := j + 1;
      }
      assert tiers[..i + 1][..i] == tiers[..i];
      assert tier[..|tier|] == tier;
      i := i + 1;
    }
    assert tiers[..|tiers|] == tiers;
  }

  // ---------------------------------------------------------------- handler

  /** The largest upload accepted, 10 << 20 bytes. */
  const MaxUpload: int := 10 * 1024 * 1024

  /** What metainfo.Load makes of the uploaded bytes: an error, or the info
      hash, the name (None when the info dictionary does not unmarshal) and
      the announce list. */
  datatype Metainfo = LoadError(err: string) | Loaded(hash: string, name: Option<string>, tiers: seq<seq<string>>)

  /** The multipart form: it does not parse, it has no "torrent" file, or a
      file with its declared size, whether reading it succeeded, and what
      loading it gave. */
  datatype Upload = BadForm(err: string) | MissingFile | TorrentUpload(size: int, readOk: bool, meta: Metainfo)

  /** What the handler writes: nothing (OPTIONS), a plain-text error, or a
      JSON object with one key. */
  datatype Answer = Silent | PlainError(status: int, message: string) | JsonField(status: int, key: string, value: string)

  /** convertTorrentToMagnetHandler. */
  function Convert(verb: string, u: Upload, esc: string -> string): (a: Answer)
    ensures a.JsonField? && a.key == "magnet" <==>
      verb == "POST" && u.TorrentUpload? && u.size <= MaxUpload && u.readOk && u.meta.Loaded?
    ensures a.JsonField? && a.key == "magnet" ==>
      a.status == StatusOK && a.value == MagnetUri(u.meta.hash, u.meta.name, u.meta.tiers, esc)
    ensures a.JsonField? && a.key == "error" ==> a.status != StatusOK
  {
    if verb == "OPTIONS" then Silent
    else if verb != "POST" then PlainError(StatusMethodNotAllowed, "Method not allowed")
    else
      match u
      case BadForm(e) => JsonField(StatusBadRequest, "error", "Failed to parse form: " + e)
      case MissingFile => JsonField(StatusBadRequest, "error", "Missing torrent file")
      case TorrentUpload(size, readOk, meta) =>
        if size > MaxUpload then JsonField(StatusBadRequest, "error", "File too large")
        else if !readOk then JsonField(StatusInternalServerError, "error", "Failed to read file")
        else
          match meta
          case LoadError(e) => JsonField(StatusBadRequest, "error", "Invalid torrent file: " + e)
          case Loaded(hash, name, tiers) => JsonField(StatusOK, "magnet", MagnetUri(hash, name, tiers, esc))
  }

  // ---------------------------------------------------------------- properties

  /** Every link the handler answers with starts with the exact topic of
      the uploaded torrent's info hash. */
  lemma MagnetAnswerShape(verb: string, u: Upload, esc: string -> string)
    requires Convert(verb, u, esc).JsonField? && Convert(verb, u, esc).key == "magnet"
    ensures HasPrefix(Convert(verb, u, esc).value, Scheme + u.meta.hash)
  {
    var m := u.meta;
    var rest := (if m.name.Some? then "&dn=" + esc(m.name.value) else "") + TrackerSuffix(Trackers(m.tiers), esc);
    ConcatAssoc(Scheme + m.hash, if m.name.Some? then "&dn=" + esc(m.name.value) else "", TrackerSuffix(Trackers(m.tiers), esc));
    PrefixOfConcat(Scheme + m.hash, rest);
  }

  lemma {:induction false} SplitTrackerSuffix(first: string, trackers: seq<string>, esc: string -> string)
    requires '&' !in first
    requires forall s :: '&' !in esc(s)
    ensures Split(first + TrackerSuffix(trackers, esc), '&') == [first] + TrackerParams(trackers, esc)
    decreases |trackers|
  {
    if |trackers| == 0 {
      assert first + "" == first;
      SplitWithoutSep(first, '&');
    } else {
      var p := "tr=" + esc(trackers[0]);
      var rest := TrackerSuffix(trackers[1..], esc);
      assert '&' !in p by {
        assert '&' !in esc(trackers[0]);
      }
      assert first + TrackerSuffix(trackers, esc) == first + ['&'] + (p + rest);
      SplitAfterPiece(first, '&', p + rest);
      SplitTrackerSuffix(p, trackers[1..], esc);
      assert TrackerParams(trackers, esc) == [p] + TrackerParams(trackers[1..], esc);
    }
  }

  /** Splitting the link on '&' gives back its parameters, since QueryEscape
      never leaves a '&' and a hexadecimal info hash has none. */
  lemma SplitMagnet(hash: string, name: Option<string>, tiers: seq<seq<string>>, esc: string -> string)
    requires '&' !in hash
    requires forall s :: '&' !in esc(s)
    ensures Split(MagnetUri(hash, name, tiers, esc), '&') == Params(hash, name, tiers, esc)
  {
    var suffix := TrackerSuffix(Trackers(tiers), esc);
    var head := Scheme + hash;
    assert '&' !in head;
    if name.Some? {
      var dn := "dn=" + esc(name.value);
      assert "&dn=" == ['&'] + "dn=";
      ConcatAssoc(['&'], "dn=", esc(name.value));
      ConcatAssoc(head, ['&'] + dn, suffix);
      SplitNamed(head, dn, Trackers(tiers), esc);
      assert [head] + [dn] + TrackerParams(Trackers(tiers), esc) == [head, dn] + TrackerParams(Trackers(tiers), esc);
    } else {
      SplitTrackerSuffix(head, Trackers(tiers), esc);
      ConcatEmpty(head);
    }
  }

  lemma SplitNamed(head: string, dn: string, trackers: seq<string>, esc: string -> string)
    requires '&' !in head && '&' !in dn
    requires forall s :: '&' !in esc(s)
    ensures Split(head + (['&'] + dn + TrackerSuffix(trackers, esc)), '&') == [head, dn] + TrackerParams(trackers, esc)
  {
    var suffix := TrackerSuffix(trackers, esc);
    SplitTrackerSuffix(dn, trackers, esc);
    SplitAfterPiece(head, '&', dn + suffix);
    ConcatAssoc(head, ['&'] + dn, suffix);
    ConcatAssoc(head, ['&'], dn);
    ConcatAssoc(head + ['&'], dn, suffix);
    assert [head] + ([dn] + TrackerParams(trackers, esc)) == [head, dn] + TrackerParams(trackers, esc);
  }

  /** Every tracker of every tier is in the link, in announce-list order. */
  lemma {:induction false} TrackersInOrder(tiers: seq<seq<string>>, i: nat, j: nat)
    requires i < |tiers| && j < |tiers[i]|
    ensures var ts := Trackers(tiers);
      |Trackers(tiers[..i])| + j < |ts| && ts[|Trackers(tiers[..i])| + j] == tiers[i][j]
    decreases |tiers|
  {
    var last := |tiers| - 1;
    assert tiers[..last] + [tiers[last]] == tiers;
    if i < last {
      TrackersInOrder(tiers[..last], i, j);
      assert tiers[..last][..i] == tiers[..i];
      assert tiers[..last][i] == tiers[i];
    } else {
      assert tiers[..i] == tiers[..last];
    }
  }
}
