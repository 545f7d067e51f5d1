/** The result normalisation of searchFromProwlarr and searchFromJackett:
    the search service answers with a list of JSON objects; each one with a
    title and at least one link is turned into the record the page shows,
    the others are skipped.  The two services differ only in their key
    names and in Jackett's extra check that a magnet link starts with
    "magnet:". */
module Search {
  import opened Wrappers
  import opened Text
  import opened Settings

  /** A JSON value as far as the loop looks at it: a string, a number
      (float64 in Go) or anything else. */
  datatype Json = JString(s: string) | JNumber(n: real) | JOther

  type Record = map<string, Json>

  datatype Provider = Prowlarr | Jackett

  /** The precheck of both search handlers: the provider's host and API key
      must be set, or the request is refused with 400. */
  predicate Configured(p: Provider, s: Settings) {
    match p
    case Prowlarr => s.prowlarrHost != "" && s.prowlarrApiKey != ""
    case Jackett => s.jackettHost != "" && s.jackettApiKey != ""
  }

  /** Where each provider keeps the fields the loop reads. */
  datatype Keys = Keys(
    title: string, download: string, magnet: string, size: string, seeders: string,
    leechers: string, indexer: string, publishDate: string, category: string)

  function KeysOf(p: Provider): Keys {
    match p
    case Prowlarr => Keys("title", "downloadUrl", "magnetUrl", "size", "seeders", "leechers", "indexer", "publishDate", "category")
    case Jackett => Keys("Title", "Link", "MagnetUri", "Size", "Seeders", "Peers", "Tracker", "PublishDate", "category")
  }

  /** The link of a processed result: the magnet link (directMagnet true),
      the download link (directMagnet false), or neither, which Jackett
      produces for a record whose only link is a MagnetUri not starting with
      "magnet:". */
  datatype Link = Magnet(url: string) | Download(url: string) | NoLink

  /** A processed result.  `size` is the number formatSize turns into text. */
  datatype Processed = Processed(
    title: string, link: Link, size: Option<real>, seeders: Option<real>, leechers: Option<real>,
    indexer: Option<string>, publishDate: Option<string>, category: Option<string>)

  /** A Go type assertion result["key"].(string) that succeeded. */
  function StringField(r: Record, key: string): (v: Option<string>)
    ensures v.Some? <==> key in r && r[key].JString?
    ensures v.Some? ==> r[key] == JString(v.value)
  {
    if key in r && r[key].JString? then Some(r[key].s) else None
  }

  /** result["key"].(float64) */
  function NumberField(r: Record, key: string): (v: Option<real>)
    ensures v.Some? <==> key in r && r[key].JNumber?
  {
    if key in r && r[key].JNumber? then Some(r[key].n) else None
  }

  /** A string field that is present and not empty. */
  predicate Filled(f: Option<string>) {
    f.Some? && f.value != ""
  }

  /** Whether a magnet field is used as the link. */
  predicate UsableMagnet(p: Provider, f: Option<string>) {
    Filled(f) && (p.Jackett? ==> HasPrefix(f.value, "magnet:"))
  }

  /** One iteration of the loop: None when the record is skipped. */
  function Normalize(p: Provider, r: Record): Option<Processed> {
    var k := KeysOf(p);
    var title := StringField(r, k.title);
    var download := StringField(r, k.download);
    var magnet := StringField(r, k.magnet);
    if !Filled(title) then None
    else if !Filled(download) && !Filled(magnet) then None
    else
      var link :=
        if UsableMagnet(p, magnet) then Magnet(magnet.value)
        else if Filled(download) then Download(download.value)
        else NoLink;
      Some(Processed(title.value, link, NumberField(r, k.size), NumberField(r, k.seeders),
                     NumberField(r, k.leechers), StringField(r, k.indexer),
                     StringField(r, k.publishDate), StringField(r, k.category)))
  }

  /** The processed results of a list of records. */
  function ProcessAll(p: Provider, rs: seq<Record>): seq<Processed>
    decreases |rs|
  {
    if |rs| == 0 then []
    else
      var front := ProcessAll(p, rs[..|rs| - 1]);
      match Normalize(p, rs[|rs| - 1])
      case None => front
      case Some(x) => front + [x]
  }

  /** The result loop of both search handlers. */
  method ProcessResults(p: Provider, results: seq<Record>) returns (processed: seq<Processed>)
    ensures processed == ProcessAll(p, results)
  {
    processed := [];
    var i := 0;
    while i < |results|
      invariant 0 <= i <= |results|
      invariant processed == ProcessAll(p, results[..i])
    {
      assert results[..i + 1][..i] == results[..i];
      var n := Normalize(p, results[i]);
      if n.Some? {
        processed := processed + [n.value];
      }
      i := i + 1;
    }
    assert results[..|results|] == results;
  }

  // ---------------------------------------------------------------- properties

  /** A record is skipped exactly when its title is missing or empty, or
      both of its links are. */
  lemma SkippedIff(p: Provider, r: Record)
    ensures var k := KeysOf(p);
      Normalize(p, r).None?
      <==> !Filled(StringField(r, k.title)) || (!Filled(StringField(r, k.download)) && !Filled(StringField(r, k.magnet)))
  {
  }

  /** A kept record has its title, and its link is the magnet link when that
      is usable, the download link otherwise. */
  lemma KeptLink(p: Provider, r: Record)
    requires Normalize(p, r).Some?
    ensures var k := KeysOf(p);
      var x := Normalize(p, r).value;
      && x.title != "" && Some(x.title) == StringField(r, k.title)
      && (x.link.Magnet? <==> UsableMagnet(p, StringField(r, k.magnet)))
      && (x.link.Magnet? ==> Some(x.link.url) == StringField(r, k.magnet))
      && (x.link.Download? ==> Some(x.link.url) == StringField(r, k.download) && x.link.url != "")
      && (x.link.NoLink? <==> p.Jackett? && !Filled(StringField(r, k.download)) && !UsableMagnet(p, StringField(r, k.magnet)))
  {
  }

  /** Prowlarr results always carry a link. */
  lemma ProwlarrAlwaysLinked(r: Record)
    requires Normalize(Prowlarr, r).Some?
    ensures !Normalize(Prowlarr, r).value.link.NoLink?
  {
  }

  /** Jackett keeps a record whose only link is a MagnetUri that does not
      start with "magnet:", and gives it no link at all. */
  lemma JackettKeepsUnlinkedResult()
    ensures var r := map["Title" := JString("t"), "MagnetUri" := JString("http://x")];
      Normalize(Jackett, r).Some? && Normalize(Jackett, r).value.link == NoLink
  {
    var r := map["Title" := JString("t"), "MagnetUri" := JString("http://x")];
    assert "Link" !in r;
    assert !HasPrefix("http://x", "magnet:") by {
      assert "http://x"[0] != "magnet:"[0];
    }
  }

  /** The output has at most as many results as the input. */
  lemma {:induction false} ProcessAllShorter(p: Provider, rs: seq<Record>)
    ensures |ProcessAll(p, rs)| <= |rs|
    decreases |rs|
  {
    if |rs| > 0 {
      ProcessAllShorter(p, rs[..|rs| - 1]);
    }
  }

  /** The indices of the records that are kept, in input order. */
  function KeptIndices(p: Provider, rs: seq<Record>): (ks: seq<nat>)
    ensures forall j :: 0 <= j < |ks| ==> ks[j] < |rs| && Normalize(p, rs[ks[j]]).Some?
    decreases |rs|
  {
    if |rs| == 0 then []
    else
      var front := KeptIndices(p, rs[..|rs| - 1]);
      if Normalize(p, rs[|rs| - 1]).Some? then front + [|rs| - 1] else front
  }

  /** Results come out in input order: the k-th result is the normalisation
      of the record at the k-th kept index, the indices increase, and every
      record that is not skipped is among them. */
  lemma OrderPreserved(p: Provider, rs: seq<Record>)
    ensures var out := ProcessAll(p, rs);
      var ks := KeptIndices(p, rs);
      && |ks| == |out|
      && (forall j :: 0 <= j < |ks| ==> out[j] == Normalize(p, rs[ks[j]]).value)
      && Increasing(ks)
      && (forall i :: 0 <= i < |rs| && Normalize(p, rs[i]).Some? ==> i in ks)
  {
    KeptResults(p, rs);
    KeptIncreasing(p, rs);
    KeptComplete(p, rs);
  }

  /** The k-th result comes from the k-th kept record. */
  lemma {:induction false} KeptResults(p: Provider, rs: seq<Record>)
    ensures var out := ProcessAll(p, rs);
      var ks := KeptIndices(p, rs);
      && |ks| == |out|
      && (forall j :: 0 <= j < |ks| ==> out[j] == Normalize(p, rs[ks[j]]).value)
    decreases |rs|
  {
    if |rs| > 0 {
      var front := rs[..|rs| - 1];
      KeptResults(p, front);
      var fks := KeptIndices(p, front);
      forall j | 0 <= j < |fks|
        ensures rs[fks[j]] == front[fks[j]]
      {
      }
    }
  }

  /** Strictly increasing indices. */
  predicate Increasing(ks: seq<nat>) {
    forall i, j :: 0 <= i < j < |ks| ==> ks[i] < ks[j]
  }

  lemma {:induction false} KeptIncreasing(p: Provider, rs: seq<Record>)
    ensures Increasing(KeptIndices(p, rs))
    decreases |rs|
  {
    if |rs| > 0 {
      var front := rs[..|rs| - 1];
      KeptIncreasing(p, front);
      var fks := KeptIndices(p, front);
      if Normalize(p, rs[|rs| - 1]).Some? {
        assert forall j :: 0 <= j < |fks| ==> fks[j] < |front|;
        assert KeptIndices(p, rs) == fks + [|rs| - 1];
      }
    }
  }

  /** No record that normalises is left out. */
  lemma {:induction false} KeptComplete(p: Provider, rs: seq<Record>)
    ensures var ks := KeptIndices(p, rs);
      forall i :: 0 <= i < |rs| && Normalize(p, rs[i]).Some? ==> i in ks
    decreases |rs|
  {
    if |rs| > 0 {
      var front := rs[..|rs| - 1];
      KeptComplete(p, front);
      var fks := KeptIndices(p, front);
      forall i | 0 <= i < |rs| && Normalize(p, rs[i]).Some?
        ensures i in KeptIndices(p, rs)
      {
        if i < |rs| - 1 {
          assert front[i] == rs[i];
          assert i in fks;
        }
      }
    }
  }
}
