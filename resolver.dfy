/** The archiver's state and the `get_info` cache-or-fetch state machine
    (main.py:97-143), with the archive ledger (`add_archive`, main.py:65-69). */
module Resolver {
  import opened Wrappers
  import opened Model
  import opened Db
  import opened Classifier

  /** A call the archiver makes into the outside world, in the order it makes
      them. */
  datatype Effect =
    | Fetch(url: string)                 // `extract_info(url)` on the provider
    | Download(url: string, path: string) // `download_video(url, path)`
    | GetFile(url: string, path: string)  // `download(url, path)` over HTTP
    | Tag(path: string, tags: Tags)       // `add_metadata(path, song)`
    | Crop(path: string)                  // `crop_image_square(path)`

  /** Everything the archiver changes: the cache, the in-memory archive
      ledger, the paths that exist on disk, and the calls made so far. */
  datatype World = World(tables: Tables, archive: seq<string>, files: set<string>, log: seq<Effect>)

  /** What the outside world answers and the settings of a run.
      `provider` holds the document `extract_info` returns for each URL it can
      extract (any other URL raises); `playable` are the URLs whose audio
      download succeeds; `reachable` are the image URLs whose HTTP download
      succeeds. */
  datatype Env = Env(
    provider: map<string, Doc>,
    playable: set<string>,
    reachable: set<string>,
    refreshAtScan: bool,
    updateExisting: bool,
    dryRun: bool,
    outputDir: string)

  /** A new world together with what a Python call returned or raised. */
  datatype Outcome<+T> = Outcome(world: World, result: Py<T>)

  /** `w'` can follow `w`: the ledger and the call log are only appended to,
      and no table or cached row disappears. */
  ghost predicate Extends(w: World, w': World)
  {
    && w.archive <= w'.archive
    && w.log <= w'.log
    && Grows(w.tables, w'.tables)
  }

  // ---------------------------------------------------------------------
  // add_archive

  /** `add_archive(url)`: append to the ledger. Nothing is deduplicated. */
  function AddArchive(w: World, url: string): (w': World)
    ensures w'.archive == w.archive + [url]
    ensures w'.tables == w.tables && w'.files == w.files && w'.log == w.log
  {
    w.(archive := w.archive + [url])
  }

  /** After `add_archive(url)` the URL is archived, every URL archived before
      still is, and the ledger has grown by one entry even when `url` was
      already in it. */
  lemma AddArchiveRecords(w: World, url: string)
    ensures url in AddArchive(w, url).archive
    ensures forall u :: u in w.archive ==> u in AddArchive(w, url).archive
    ensures |AddArchive(w, url).archive| == |w.archive| + 1
  {
    assert AddArchive(w, url).archive[|w.archive|] == url;
  }

  // ---------------------------------------------------------------------
  // get_info

  /** `get_info(url, force_update)`. The id is computed before the kind is
      checked, so an id that cannot be extracted raises out of `get_info`. A URL
      of no kind gives `False` (`None` here) and the id is never checked. A
      cache hit is returned unless `force_update` is set. Otherwise the
      provider is asked; the document is written with `add_entry`, or
      `update_entry` when forced, and returned; a failure of the fetch or of
      the write archives the URL and gives `False`. */
  function Resolve(w: World, env: Env, url: string, force: bool): (o: Outcome<Option<Doc>>)
    ensures Extends(w, o.world) && o.world.files == w.files
    ensures o.world.log == w.log || o.world.log == w.log + [Fetch(url)]
  {
    var kind := LinkType(url);
    var id := GetId(kind, url);
    if id.Raise? then Outcome(w, Raise(id.fault))
    else if kind.None? then Outcome(w, Ok(None))
    else
      var hit := Lookup(w.tables, kind.value, id.value);
      if hit.Some? && !force then Outcome(w, Ok(hit))
      else
        var w1 := w.(log := w.log + [Fetch(url)]);
        if url !in env.provider then Outcome(AddArchive(w1, url), Ok(None))
        else
          var doc := env.provider[url];
          var written := if force then Update(w.tables, kind.value, id.value, doc)
                         else Insert(w.tables, kind.value, id.value, doc);
          if written.Raise? then Outcome(AddArchive(w1, url), Ok(None))
          else Outcome(w1.(tables := written.value), Ok(Some(doc)))
  }

  /** What one `get_info` call can do: raise only `IndexError` and then change
      nothing; archive only `url`, and only when it gives `False`; give `False`
      without archiving only for a URL of no kind; and return either the
      cached document, without a provider call and only when not forced, or
      the document the provider gave for `url`. */
  lemma ResolveSound(w: World, env: Env, url: string, force: bool)
    ensures var o := Resolve(w, env, url, force);
      && (o.result.Raise? ==> o.world == w && o.result.fault == IndexError)
      && (o.world.archive == w.archive || (o.world.archive == w.archive + [url] && o.result == Ok(None)))
      && (o.result == Ok(None) ==> LinkType(url).None? || o.world.archive == w.archive + [url])
      && (o.result.Ok? && o.result.value.Some? && o.world.log == w.log ==>
            !force && LinkType(url).Some? && GetId(LinkType(url), url).Ok? &&
            Lookup(w.tables, LinkType(url).value, GetId(LinkType(url), url).value) == o.result.value)
      && (o.result.Ok? && o.result.value.Some? && o.world.log != w.log ==>
            url in env.provider && o.result.value.value == env.provider[url])
  {
  }

  /** On a cache hit without `force_update`, `get_info` returns the cached
      document and makes no provider call, no cache write and no ledger entry. */
  lemma CacheHitIsPure(w: World, env: Env, url: string, d: Doc)
    requires LinkType(url).Some? && GetId(LinkType(url), url).Ok?
    requires Lookup(w.tables, LinkType(url).value, GetId(LinkType(url), url).value) == Some(d)
    ensures Resolve(w, env, url, false) == Outcome(w, Ok(Some(d)))
  {
  }

  /** A URL that the provider cannot extract, and that is not served from the
      cache, is archived and gives `False`. */
  lemma FetchFailureArchives(w: World, env: Env, url: string, force: bool)
    requires LinkType(url).Some? && GetId(LinkType(url), url).Ok?
    requires force || Lookup(w.tables, LinkType(url).value, GetId(LinkType(url), url).value).None?
    requires url !in env.provider
    ensures Resolve(w, env, url, force).result == Ok(None)
    ensures Resolve(w, env, url, force).world.archive == w.archive + [url]
    ensures Resolve(w, env, url, force).world.log == w.log + [Fetch(url)]
  {
  }

  /** A document fetched without `force_update`, under an id free of quotes,
      is served from the cache on the next call: the second call returns the
      same document and changes nothing. */
  lemma FetchThenHit(w: World, env: Env, url: string)
    requires Resolve(w, env, url, false).result.Ok? && Resolve(w, env, url, false).result.value.Some?
    requires !Malformed(GetId(LinkType(url), url).value)
    ensures var o := Resolve(w, env, url, false);
      Resolve(o.world, env, url, false) == Outcome(o.world, o.result)
  {
    var kind := LinkType(url);
    var id := GetId(kind, url).value;
    var o := Resolve(w, env, url, false);
    if o.world.log != w.log {
      var doc := env.provider[url];
      InsertThenLookup(w.tables, kind.value, id, doc);
    }
  }

  /** An id containing a quote is cached but never found again: the second
      call fetches again, the INSERT hits the existing key, and the URL is
      archived. */
  lemma QuotedIdRefetchArchives(w: World, env: Env, url: string)
    requires LinkType(url).Some? && GetId(LinkType(url), url).Ok?
    requires Malformed(GetId(LinkType(url), url).value)
    requires Resolve(w, env, url, false).result.Ok? && Resolve(w, env, url, false).result.value.Some?
    ensures var o := Resolve(w, env, url, false);
      var o2 := Resolve(o.world, env, url, false);
      o2.result == Ok(None) && o2.world.archive == o.world.archive + [url] &&
      o2.world.log == o.world.log + [Fetch(url)]
  {
    var kind := LinkType(url).value;
    var id := GetId(LinkType(url), url).value;
    var o := Resolve(w, env, url, false);
    assert o.world.tables == Insert(w.tables, kind, id, env.provider[url]).value;
    QuotedIdNeverFound(w.tables, kind, id, env.provider[url]);
  }

  /** A forced refresh of a URL whose id was never cached returns the
      provider's document but writes nothing: the UPDATE matches no row. */
  lemma ForcedUpdateOfUncachedWritesNothing(w: World, env: Env, url: string)
    requires LinkType(url).Some? && GetId(LinkType(url), url).Ok?
    requires LinkType(url).value in w.tables
    requires GetId(LinkType(url), url).value !in w.tables[LinkType(url).value]
    requires url in env.provider
    requires !Malformed(GetId(LinkType(url), url).value) && !DocHasQuote(env.provider[url])
    ensures Resolve(w, env, url, true).result == Ok(Some(env.provider[url]))
    ensures Resolve(w, env, url, true).world.tables == w.tables
  {
  }

  /** A forced refresh of a cached id with a quote-free document replaces the
      cached document, which the next unforced call then returns. */
  lemma ForcedUpdateRefreshes(w: World, env: Env, url: string)
    requires LinkType(url).Some? && GetId(LinkType(url), url).Ok?
    requires LinkType(url).value in w.tables
    requires GetId(LinkType(url), url).value in w.tables[LinkType(url).value]
    requires url in env.provider
    requires !Malformed(GetId(LinkType(url), url).value) && !DocHasQuote(env.provider[url])
    ensures var o := Resolve(w, env, url, true);
      o.result == Ok(Some(env.provider[url])) &&
      Resolve(o.world, env, url, false) == Outcome(o.world, Ok(Some(env.provider[url])))
  {
  }

  // ---------------------------------------------------------------------
  // Calls that succeed

  /** The cache key `get_info` computes for a URL: its kind and its id. */
  function KeyOf(url: string): (r: (Option<Kind>, Py<string>))
    ensures r.0 == LinkType(url) && r.1 == GetId(LinkType(url), url)
  {
    (LinkType(url), GetId(LinkType(url), url))
  }

  /** An unforced `get_info(url)` answers `d` without archiving: the URL has a
      kind and a quote-free id, the table exists, and either `d` is cached
      under the id or the id is not cached and the provider gives `d`. */
  ghost predicate Answers(w: World, env: Env, url: string, d: Doc)
  {
    && LinkType(url).Some? && GetId(LinkType(url), url).Ok?
    && var k := LinkType(url).value;
       var id := GetId(LinkType(url), url).value;
       && !Malformed(id) && k in w.tables
       && (if id in w.tables[k] then w.tables[k][id] == d
           else url in env.provider && env.provider[url] == d)
  }

  /** An answered call returns its document, archives nothing, and leaves the
      URL answered (now from the cache); every URL with another key that was
      answered still is. */
  lemma ResolveAnswers(w: World, env: Env, url: string, d: Doc)
    requires Answers(w, env, url, d)
    ensures var o := Resolve(w, env, url, false);
      && o.result == Ok(Some(d)) && o.world.archive == w.archive
      && Answers(o.world, env, url, d)
      && forall url2, d2 :: Answers(w, env, url2, d2) && KeyOf(url2) != KeyOf(url) ==> Answers(o.world, env, url2, d2)
  {
    var k := LinkType(url).value;
    var id := GetId(LinkType(url), url).value;
    var o := Resolve(w, env, url, false);
    if id !in w.tables[k] {
      assert o.world.tables == Insert(w.tables, k, id, d).value;
      forall url2, d2 | Answers(w, env, url2, d2) && KeyOf(url2) != KeyOf(url)
        ensures Answers(o.world, env, url2, d2)
      {
        WriteTouchesOneRow(w.tables, k, id, d);
      }
    }
  }
}
