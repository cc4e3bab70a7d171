/** `get_songs` (main.py:225-379): resolving a channel URL into the flat list
    of songs to download, one `get_info` per child that is not archived. */
module Flattener {
  import opened Wrappers
  import opened Model
  import opened Text
  import opened Db
  import opened Classifier
  import opened Sanitize
  import opened Resolver

  /** The index a song keeps when nothing sets it (`album_song.__init__`). */
  const DefaultIndex: nat := 1

  /** The album title of a video without an album. */
  const UnknownAlbum: string := "_unknown"

  // ---------------------------------------------------------------------
  // Building one song record

  /** The song for a video found directly (main.py:311-321, 341-351, 364-375):
      its own title, album (or `_unknown`), second-to-last thumbnail, id and
      the first four characters of its upload date. Reading a missing key
      raises `KeyError` and a list of fewer than two thumbnails `IndexError`,
      the first failure in the order the fields are read. */
  function VideoSong(vd: Doc, url: string, index: nat, channel: string): (r: Py<Song>)
    ensures r.Ok? <==> vd.title.Present? && vd.thumbnails.Present? && |vd.thumbnails.value| >= 2
                       && vd.id.Present? && vd.uploadDate.Present?
    ensures r.Raise? ==> (r.fault == IndexError <==>
      vd.title.Present? && vd.thumbnails.Present? && |vd.thumbnails.value| < 2)
    ensures r.Raise? ==> r.fault in {KeyError, IndexError}
    ensures r.Ok? ==> r.value.url == url && r.value.albumUrl == url && r.value.index == index
                      && r.value.channel == channel
    ensures r.Ok? ==> r.value.year.Some? && |r.value.year.value| <= 4 && r.value.year.value <= vd.uploadDate.value
    ensures r.Ok? ==> r.value.albumTitle == (if vd.album.Present? then vd.album.value else UnknownAlbum)
  {
    if vd.title.Missing? then Raise(KeyError)
    else
      var album := if vd.album.Present? then vd.album.value else UnknownAlbum;
      if vd.thumbnails.Missing? then Raise(KeyError)
      else if |vd.thumbnails.value| < 2 then Raise(IndexError)
      else if vd.id.Missing? then Raise(KeyError)
      else if vd.uploadDate.Missing? then Raise(KeyError)
      else
        var th := vd.thumbnails.value;
        Ok(Song(vd.title.value, index, url, album, th[|th| - 2], url, channel, vd.id.value,
                Some(Take(vd.uploadDate.value, 4))))
  }

  /** The song for a video of an album playlist (main.py:282-295): the album
      falls back to the playlist's title, the cover is the playlist's
      second-to-last thumbnail, the album URL is the playlist's, and the year
      is `str(release_year)`, absent when the provider gave null. */
  function TrackSong(vd: Doc, playlist: Doc, url: string, index: nat, albumUrl: string, channel: string): (r: Py<Song>)
    ensures r.Ok? <==> vd.title.Present? && (vd.album.Present? || playlist.title.Present?)
                       && playlist.thumbnails.Present? && |playlist.thumbnails.value| >= 2
                       && vd.id.Present? && vd.releaseYear.Present?
    ensures r.Raise? ==> r.fault in {KeyError, IndexError}
    ensures r.Ok? ==> r.value.url == url && r.value.albumUrl == albumUrl && r.value.index == index
                      && r.value.channel == channel
    ensures r.Ok? ==> (r.value.year.Some? <==> vd.releaseYear.value.Some?)
    ensures r.Ok? ==> r.value.albumTitle == (if vd.album.Present? then vd.album.value else playlist.title.value)
  {
    if vd.title.Missing? then Raise(KeyError)
    else if vd.album.Missing? && playlist.title.Missing? then Raise(KeyError)
    else
      var album := if vd.album.Present? then vd.album.value else playlist.title.value;
      if playlist.thumbnails.Missing? then Raise(KeyError)
      else if |playlist.thumbnails.value| < 2 then Raise(IndexError)
      else if vd.id.Missing? then Raise(KeyError)
      else if vd.releaseYear.Missing? then Raise(KeyError)
      else
        var th := playlist.thumbnails.value;
        var year := match vd.releaseYear.value
          case None => None
          case Some(y) => Some(IntToString(y));
        Ok(Song(vd.title.value, index, url, album, th[|th| - 2], albumUrl, channel, vd.id.value, year))
  }

  // ---------------------------------------------------------------------
  // What the loops promise

  /** Each song sits at the position `index` of `es`, in `[lo, hi)`, that
      holds its URL, and the songs keep the order of the entries. */
  ghost predicate Positions(songs: seq<Song>, es: seq<Entry>, lo: nat, hi: nat)
  {
    && hi <= |es|
    && (forall j :: 0 <= j < |songs| ==> lo <= songs[j].index < hi && es[songs[j].index].url == songs[j].url)
    && (forall j, k :: 0 <= j < k < |songs| ==> songs[j].index < songs[k].index)
  }

  /** No song is for a URL of `archive`. */
  ghost predicate Fresh(songs: seq<Song>, archive: seq<string>)
  {
    forall s :: s in songs ==> s.url !in archive
  }

  /** Every song carries the channel name `channel`. */
  ghost predicate OfChannel(songs: seq<Song>, channel: string)
  {
    forall s :: s in songs ==> s.channel == channel
  }

  /** Every song belongs to the album playlist at `albumUrl`. */
  ghost predicate OfAlbum(songs: seq<Song>, albumUrl: string)
  {
    forall s :: s in songs ==> s.albumUrl == albumUrl
  }

  /** Every provider call from position `from` of `log` on is for a URL
      outside `archive`. */
  ghost predicate FetchesAvoid(log: seq<Effect>, from: nat, archive: seq<string>)
  {
    forall j :: from <= j < |log| && log[j].Fetch? ==> log[j].url !in archive
  }

  /** `r` keeps the songs `acc` and appends only songs of `channel` for URLs
      outside `archive`. */
  ghost predicate Kept(acc: seq<Song>, r: seq<Song>, channel: string, archive: seq<string>)
  {
    acc <= r && Fresh(r[|acc|..], archive) && OfChannel(r[|acc|..], channel)
  }

  /** As `Kept`, and the appended songs are for entries `es[lo..hi]`, in
      order and at their positions. */
  ghost predicate Collected(acc: seq<Song>, r: seq<Song>, es: seq<Entry>, lo: nat, hi: nat,
                            channel: string, archive: seq<string>)
  {
    Kept(acc, r, channel, archive) && Positions(r[|acc|..], es, lo, hi)
  }

  /** Songs kept in two stretches, the second against a later archive. */
  lemma KeptJoin(acc: seq<Song>, mid: seq<Song>, r: seq<Song>, channel: string,
                 a: seq<string>, a1: seq<string>)
    requires a <= a1
    requires Kept(acc, mid, channel, a) && Kept(mid, r, channel, a1)
    ensures Kept(acc, r, channel, a)
  {
    assert r[|acc|..] == mid[|acc|..] + r[|mid|..];
  }

  /** Positioned songs for `es[lo..m]` followed by positioned songs for
      `es[m..hi]`. */
  lemma PositionsJoin(x: seq<Song>, y: seq<Song>, es: seq<Entry>, lo: nat, m: nat, hi: nat)
    requires lo <= m <= hi
    requires Positions(x, es, lo, m) && Positions(y, es, m, hi)
    ensures Positions(x + y, es, lo, hi)
  {
    var z := x + y;
    forall j | 0 <= j < |z| ensures lo <= z[j].index < hi && es[z[j].index].url == z[j].url {
      if j < |x| {
        assert z[j] == x[j];
      } else {
        assert z[j] == y[j - |x|];
      }
    }
    forall j, k | 0 <= j < k < |z| ensures z[j].index < z[k].index {
      if k < |x| {
        assert z[j] == x[j] && z[k] == x[k];
      } else if j >= |x| {
        assert z[j] == y[j - |x|] && z[k] == y[k - |x|];
      } else {
        assert z[j] == x[j] && z[k] == y[k - |x|];
      }
    }
  }

  /** Songs collected for `es[lo..m]` followed by songs collected for
      `es[m..hi]` are collected for `es[lo..hi]`. */
  lemma CollectedJoin(acc: seq<Song>, mid: seq<Song>, r: seq<Song>, es: seq<Entry>, lo: nat, m: nat, hi: nat,
                      channel: string, a: seq<string>, a1: seq<string>)
    requires lo <= m <= hi && a <= a1
    requires Collected(acc, mid, es, lo, m, channel, a) && Collected(mid, r, es, m, hi, channel, a1)
    ensures Collected(acc, r, es, lo, hi, channel, a)
  {
    KeptJoin(acc, mid, r, channel, a, a1);
    assert r[|acc|..] == mid[|acc|..] + r[|mid|..];
    PositionsJoin(mid[|acc|..], r[|mid|..], es, lo, m, hi);
  }

  /** Albums of two stretches of songs. */
  lemma OfAlbumJoin(acc: seq<Song>, mid: seq<Song>, r: seq<Song>, albumUrl: string)
    requires acc <= mid <= r
    requires OfAlbum(mid[|acc|..], albumUrl) && OfAlbum(r[|mid|..], albumUrl)
    ensures OfAlbum(r[|acc|..], albumUrl)
  {
    assert r[|acc|..] == mid[|acc|..] + r[|mid|..];
  }

  /** Provider calls that avoid an archive, followed by calls that avoid a
      later archive, avoid the first. */
  lemma AvoidChain(l0: seq<Effect>, l1: seq<Effect>, l2: seq<Effect>, a: seq<string>, a': seq<string>)
    requires l0 <= l1 <= l2 && a <= a'
    requires FetchesAvoid(l1, |l0|, a) && FetchesAvoid(l2, |l1|, a')
    ensures FetchesAvoid(l2, |l0|, a)
  {
    forall j | |l0| <= j < |l2| && l2[j].Fetch? ensures l2[j].url !in a {
      if j < |l1| {
        assert l2[j] == l1[j];
      }
    }
  }

  /** Appending no song collects nothing. */
  lemma NoSong(acc: seq<Song>, es: seq<Entry>, i: nat, channel: string, archive: seq<string>, albumUrl: string)
    requires i < |es|
    ensures Collected(acc, acc, es, i, i + 1, channel, archive) && OfAlbum(acc[|acc|..], albumUrl)
  {
    assert acc[|acc|..] == [];
  }

  /** Appending the song of the fresh entry `i` collects it for `es[i..i + 1]`. */
  lemma OneSong(acc: seq<Song>, s: Song, es: seq<Entry>, i: nat, channel: string, archive: seq<string>)
    requires i < |es| && s.index == i && s.url == es[i].url && s.url !in archive && s.channel == channel
    ensures Collected(acc, acc + [s], es, i, i + 1, channel, archive)
    ensures OfAlbum((acc + [s])[|acc|..], s.albumUrl)
  {
    assert (acc + [s])[|acc|..] == [s];
  }

  // ---------------------------------------------------------------------
  // The `/videos` loop (main.py:300-321), also the inner loop of a
  // YoutubeTab playlist (main.py:330-351)

  /** One pass of the loop body for the entry `e` at position `index`:
      archived URLs are skipped, `False` from `get_info` skips the entry, and
      otherwise the video's song is appended. */
  function VideoStep(w: World, env: Env, e: Entry, index: nat, channel: string, acc: seq<Song>): (o: Outcome<seq<Song>>)
    ensures Extends(w, o.world) && o.world.files == w.files
  {
    if e.url in w.archive then Outcome(w, Ok(acc))
    else
      var g := Resolve(w, env, e.url, false);
      if g.result.Raise? then Outcome(g.world, Raise(g.result.fault))
      else if g.result.value.None? then Outcome(g.world, Ok(acc))
      else
        var s := VideoSong(g.result.value.value, e.url, index, channel);
        if s.Raise? then Outcome(g.world, Raise(s.fault))
        else Outcome(g.world, Ok(acc + [s.value]))
  }

  /** One pass asks the provider at most about its own entry, and only when
      that entry is not archived; it appends at most the song of entry `i`. */
  lemma VideoStepSound(w: World, env: Env, es: seq<Entry>, i: nat, channel: string, acc: seq<Song>)
    requires i < |es|
    ensures var o := VideoStep(w, env, es[i], i, channel, acc);
      FetchesAvoid(o.world.log, |w.log|, w.archive) &&
      (o.result.Ok? ==> Collected(acc, o.result.value, es, i, i + 1, channel, w.archive))
  {
    var e := es[i];
    NoSong(acc, es, i, channel, w.archive, e.url);
    if e.url !in w.archive {
      var g := Resolve(w, env, e.url, false);
      if g.result.Ok? && g.result.value.Some? {
        var s := VideoSong(g.result.value.value, e.url, i, channel);
        if s.Ok? {
          OneSong(acc, s.value, es, i, channel, w.archive);
        }
      }
    }
  }

  /** The loop from entry `i` on, with the songs `acc` collected so far. */
  function CollectVideos(w: World, env: Env, es: seq<Entry>, i: nat, channel: string, acc: seq<Song>): (o: Outcome<seq<Song>>)
    requires i <= |es|
    ensures Extends(w, o.world) && o.world.files == w.files
    decreases |es| - i
  {
    if i == |es| then Outcome(w, Ok(acc))
    else
      var st := VideoStep(w, env, es[i], i, channel, acc);
      if st.result.Raise? then st
      else CollectVideos(st.world, env, es, i + 1, channel, st.result.value)
  }

  /** The loop keeps the songs collected before it, adds songs for entries of
      `es` from `i` on in their order and at their positions, skips archived
      URLs, and asks the provider only about URLs that were not archived. */
  lemma {:induction false} CollectVideosSound(w: World, env: Env, es: seq<Entry>, i: nat, channel: string, acc: seq<Song>)
    requires i <= |es|
    ensures var o := CollectVideos(w, env, es, i, channel, acc);
      FetchesAvoid(o.world.log, |w.log|, w.archive) &&
      (o.result.Ok? ==> Collected(acc, o.result.value, es, i, |es|, channel, w.archive))
    decreases |es| - i
  {
    if i == |es| {
      assert acc[|acc|..] == [];
    } else {
      var st := VideoStep(w, env, es[i], i, channel, acc);
      VideoStepSound(w, env, es, i, channel, acc);
      if st.result.Ok? {
        var o := CollectVideos(st.world, env, es, i + 1, channel, st.result.value);
        CollectVideosSound(st.world, env, es, i + 1, channel, st.result.value);
        AvoidChain(w.log, st.world.log, o.world.log, w.archive, st.world.archive);
        if o.result.Ok? {
          CollectedJoin(acc, st.result.value, o.result.value, es, i, i + 1, |es|, channel, w.archive, st.world.archive);
        }
      }
    }
  }

  // ---------------------------------------------------------------------
  // The album playlist loop of `/releases` (main.py:271-295)

  /** One pass for the video `e` at position `index` of an album playlist.
      Reading the title of an archived entry for the log message raises
      `KeyError` when it has none. */
  function TrackStep(w: World, env: Env, e: Entry, index: nat, playlist: Doc, albumUrl: string,
                     channel: string, acc: seq<Song>): (o: Outcome<seq<Song>>)
    ensures Extends(w, o.world) && o.world.files == w.files
  {
    if e.url in w.archive then
      if e.title.Missing? then Outcome(w, Raise(KeyError)) else Outcome(w, Ok(acc))
    else
      var g := Resolve(w, env, e.url, false);
      if g.result.Raise? then Outcome(g.world, Raise(g.result.fault))
      else if g.result.value.None? then Outcome(g.world, Ok(acc))
      else
        var s := TrackSong(g.result.value.value, playlist, e.url, index, albumUrl, channel);
        if s.Raise? then Outcome(g.world, Raise(s.fault))
        else Outcome(g.world, Ok(acc + [s.value]))
  }

  lemma TrackStepSound(w: World, env: Env, es: seq<Entry>, i: nat, playlist: Doc, albumUrl: string,
                       channel: string, acc: seq<Song>)
    requires i < |es|
    ensures var o := TrackStep(w, env, es[i], i, playlist, albumUrl, channel, acc);
      FetchesAvoid(o.world.log, |w.log|, w.archive) &&
      (o.result.Ok? ==> Collected(acc, o.result.value, es, i, i + 1, channel, w.archive) &&
                        OfAlbum(o.result.value[|acc|..], albumUrl))
  {
    var e := es[i];
    NoSong(acc, es, i, channel, w.archive, albumUrl);
    if e.url !in w.archive {
      var g := Resolve(w, env, e.url, false);
      if g.result.Ok? && g.result.value.Some? {
        var s := TrackSong(g.result.value.value, playlist, e.url, i, albumUrl, channel);
        if s.Ok? {
          OneSong(acc, s.value, es, i, channel, w.archive);
        }
      }
    }
  }

  /** The videos of one album playlist from entry `i` on. */
  function CollectTracks(w: World, env: Env, es: seq<Entry>, i: nat, playlist: Doc, albumUrl: string,
                         channel: string, acc: seq<Song>): (o: Outcome<seq<Song>>)
    requires i <= |es|
    ensures Extends(w, o.world) && o.world.files == w.files
    decreases |es| - i
  {
    if i == |es| then Outcome(w, Ok(acc))
    else
      var st := TrackStep(w, env, es[i], i, playlist, albumUrl, channel, acc);
      if st.result.Raise? then st
      else CollectTracks(st.world, env, es, i + 1, playlist, albumUrl, channel, st.result.value)
  }

  /** Album tracks are collected in playlist order at their playlist
      positions, all under the playlist's URL, never for archived videos, and
      the provider is asked only about videos that were not archived. */
  lemma {:induction false} CollectTracksSound(w: World, env: Env, es: seq<Entry>, i: nat, playlist: Doc,
                                              albumUrl: string, channel: string, acc: seq<Song>)
    requires i <= |es|
    ensures var o := CollectTracks(w, env, es, i, playlist, albumUrl, channel, acc);
      FetchesAvoid(o.world.log, |w.log|, w.archive) &&
      (o.result.Ok? ==> Collected(acc, o.result.value, es, i, |es|, channel, w.archive) &&
                        OfAlbum(o.result.value[|acc|..], albumUrl))
    decreases |es| - i
  {
    if i == |es| {
      assert acc[|acc|..] == [];
    } else {
      var st := TrackStep(w, env, es[i], i, playlist, albumUrl, channel, acc);
      TrackStepSound(w, env, es, i, playlist, albumUrl, channel, acc);
      if st.result.Ok? {
        var o := CollectTracks(st.world, env, es, i + 1, playlist, albumUrl, channel, st.result.value);
        CollectTracksSound(st.world, env, es, i + 1, playlist, albumUrl, channel, st.result.value);
        AvoidChain(w.log, st.world.log, o.world.log, w.archive, st.world.archive);
        if o.result.Ok? {
          CollectedJoin(acc, st.result.value, o.result.value, es, i, i + 1, |es|, channel, w.archive, st.world.archive);
          OfAlbumJoin(acc, st.result.value, o.result.value, albumUrl);
        }
      }
    }
  }

  // ---------------------------------------------------------------------
  // The `/releases` loop over album playlists (main.py:249-295)

  /** `s` belongs to the album playlist of one of the entries `es[lo..hi]`,
      whose URL was not archived. */
  ghost predicate AlbumOf(s: Song, es: seq<Entry>, lo: nat, hi: nat, archive: seq<string>)
  {
    s.albumUrl !in archive && exists j :: lo <= j < hi && j < |es| && es[j].url == s.albumUrl
  }

  /** As `Kept`, and every appended song belongs to a playlist of
      `es[lo..hi]` that was not archived. */
  ghost predicate Released(acc: seq<Song>, r: seq<Song>, es: seq<Entry>, lo: nat, hi: nat,
                           channel: string, archive: seq<string>)
  {
    Kept(acc, r, channel, archive) && forall s :: s in r[|acc|..] ==> AlbumOf(s, es, lo, hi, archive)
  }

  /** One pass for the album playlist `e`: archived playlists are skipped,
      `False` skips the playlist, a playlist without `entries` raises, and
      otherwise its videos are collected. */
  function ReleaseStep(w: World, env: Env, e: Entry, channel: string, acc: seq<Song>): (o: Outcome<seq<Song>>)
    ensures Extends(w, o.world) && o.world.files == w.files
  {
    if e.url in w.archive then Outcome(w, Ok(acc))
    else
      var g := Resolve(w, env, e.url, env.refreshAtScan);
      if g.result.Raise? then Outcome(g.world, Raise(g.result.fault))
      else if g.result.value.None? then Outcome(g.world, Ok(acc))
      else
        var pl := g.result.value.value;
        if pl.entries.Missing? then Outcome(g.world, Raise(KeyError))
        else CollectTracks(g.world, env, pl.entries.value, 0, pl, e.url, channel, acc)
  }

  lemma ReleaseStepSound(w: World, env: Env, es: seq<Entry>, i: nat, channel: string, acc: seq<Song>)
    requires i < |es|
    ensures var o := ReleaseStep(w, env, es[i], channel, acc);
      FetchesAvoid(o.world.log, |w.log|, w.archive) &&
      (o.result.Ok? ==> Released(acc, o.result.value, es, i, i + 1, channel, w.archive))
  {
    var e := es[i];
    if e.url !in w.archive {
      var g := Resolve(w, env, e.url, env.refreshAtScan);
      if g.result.Ok? && g.result.value.Some? && g.result.value.value.entries.Present? {
        ReleaseTracksSound(w, g.world, env, es, i, g.result.value.value, channel, acc);
      } else {
        assert acc[|acc|..] == [];
      }
    } else {
      assert acc[|acc|..] == [];
    }
  }

  /** The tracks of the fetched album playlist `pl` of the fresh entry `i`. */
  lemma ReleaseTracksSound(w: World, w1: World, env: Env, es: seq<Entry>, i: nat, pl: Doc, channel: string, acc: seq<Song>)
    requires i < |es| && es[i].url !in w.archive && pl.entries.Present?
    requires Extends(w, w1) && FetchesAvoid(w1.log, |w.log|, w.archive)
    ensures var t := CollectTracks(w1, env, pl.entries.value, 0, pl, es[i].url, channel, acc);
      FetchesAvoid(t.world.log, |w.log|, w.archive) &&
      (t.result.Ok? ==> Released(acc, t.result.value, es, i, i + 1, channel, w.archive))
  {
    var t := CollectTracks(w1, env, pl.entries.value, 0, pl, es[i].url, channel, acc);
    CollectTracksSound(w1, env, pl.entries.value, 0, pl, es[i].url, channel, acc);
    AvoidChain(w.log, w1.log, t.world.log, w.archive, w1.archive);
    if t.result.Ok? {
      KeptJoin(acc, acc, t.result.value, channel, w.archive, w1.archive);
      OneAlbum(acc, t.result.value, es, i, channel, w.archive);
    }
  }

  /** Songs all of the album playlist of the fresh entry `i`. */
  lemma OneAlbum(acc: seq<Song>, r: seq<Song>, es: seq<Entry>, i: nat, channel: string, archive: seq<string>)
    requires i < |es| && es[i].url !in archive
    requires Kept(acc, r, channel, archive) && OfAlbum(r[|acc|..], es[i].url)
    ensures Released(acc, r, es, i, i + 1, channel, archive)
  {
    forall s | s in r[|acc|..] ensures AlbumOf(s, es, i, i + 1, archive) {
      assert es[i].url == s.albumUrl;
    }
  }

  /** Songs released for `es[lo..m]` followed by songs released for
      `es[m..hi]`. */
  lemma ReleasedJoin(acc: seq<Song>, mid: seq<Song>, r: seq<Song>, es: seq<Entry>, lo: nat, m: nat, hi: nat,
                     channel: string, a: seq<string>, a1: seq<string>)
    requires lo <= m <= hi && a <= a1
    requires Released(acc, mid, es, lo, m, channel, a) && Released(mid, r, es, m, hi, channel, a1)
    ensures Released(acc, r, es, lo, hi, channel, a)
  {
    KeptJoin(acc, mid, r, channel, a, a1);
    assert r[|acc|..] == mid[|acc|..] + r[|mid|..];
    forall s | s in r[|acc|..] ensures AlbumOf(s, es, lo, hi, a) {
      if s in mid[|acc|..] {
        assert AlbumOf(s, es, lo, m, a);
        var j :| lo <= j < m && j < |es| && es[j].url == s.albumUrl;
        assert lo <= j < hi;
      } else {
        assert s in r[|mid|..];
        assert AlbumOf(s, es, m, hi, a1);
        var j :| m <= j < hi && j < |es| && es[j].url == s.albumUrl;
        assert lo <= j < hi;
      }
    }
  }

  /** The loop over the channel's album playlists from entry `i` on. */
  function CollectReleases(w: World, env: Env, es: seq<Entry>, i: nat, channel: string, acc: seq<Song>): (o: Outcome<seq<Song>>)
    requires i <= |es|
    ensures Extends(w, o.world) && o.world.files == w.files
    decreases |es| - i
  {
    if i == |es| then Outcome(w, Ok(acc))
    else
      var st := ReleaseStep(w, env, es[i], channel, acc);
      if st.result.Raise? then st
      else CollectReleases(st.world, env, es, i + 1, channel, st.result.value)
  }

  /** Album songs are only for videos and playlists that were not archived,
      each song's album URL is one of the release entries, and the provider
      is asked only about URLs that were not archived. */
  lemma {:induction false} CollectReleasesSound(w: World, env: Env, es: seq<Entry>, i: nat, channel: string, acc: seq<Song>)
    requires i <= |es|
    ensures var o := CollectReleases(w, env, es, i, channel, acc);
      FetchesAvoid(o.world.log, |w.log|, w.archive) &&
      (o.result.Ok? ==> Released(acc, o.result.value, es, i, |es|, channel, w.archive))
    decreases |es| - i
  {
    if i == |es| {
      assert acc[|acc|..] == [];
    } else {
      var st := ReleaseStep(w, env, es[i], channel, acc);
      ReleaseStepSound(w, env, es, i, channel, acc);
      if st.result.Ok? {
        var o := CollectReleases(st.world, env, es, i + 1, channel, st.result.value);
        CollectReleasesSound(st.world, env, es, i + 1, channel, st.result.value);
        AvoidChain(w.log, st.world.log, o.world.log, w.archive, st.world.archive);
        if o.result.Ok? {
          ReleasedJoin(acc, st.result.value, o.result.value, es, i, i + 1, |es|, channel, w.archive, st.world.archive);
        }
      }
    }
  }

  // ---------------------------------------------------------------------
  // Every answered entry yields its song

  /** The entries `es[i..]` that are not archived are answered by the
      documents `docs`, under pairwise different cache keys. */
  ghost predicate AllAnswered(w: World, env: Env, es: seq<Entry>, docs: seq<Doc>, i: nat)
  {
    && |docs| == |es| && i <= |es|
    && (forall j :: i <= j < |es| && es[j].url !in w.archive ==> Answers(w, env, es[j].url, docs[j]))
    && (forall j, k :: i <= j < k < |es| && es[j].url !in w.archive && es[k].url !in w.archive ==>
          KeyOf(es[j].url) != KeyOf(es[k].url))
  }

  /** Every entry of `es[i..]` that is not archived makes a song. */
  ghost predicate VideosReady(archive: seq<string>, es: seq<Entry>, docs: seq<Doc>, i: nat, channel: string)
  {
    && |docs| == |es| && i <= |es|
    && forall j :: i <= j < |es| && es[j].url !in archive ==> VideoSong(docs[j], es[j].url, j, channel).Ok?
  }

  /** Every video of `es[i..]` that is not archived makes a track, and every
      archived one has the title its log line reads. */
  ghost predicate TracksReady(archive: seq<string>, es: seq<Entry>, docs: seq<Doc>, i: nat, playlist: Doc,
                              albumUrl: string, channel: string)
  {
    && |docs| == |es| && i <= |es|
    && (forall j :: i <= j < |es| && es[j].url !in archive ==>
          TrackSong(docs[j], playlist, es[j].url, j, albumUrl, channel).Ok?)
    && (forall j :: i <= j < |es| && es[j].url in archive ==> es[j].title.Present?)
  }

  /** The song a turn of a loop contributes: `s`'s song when the entry is
      taken and makes one, nothing otherwise. */
  function Yield(taken: bool, s: Py<Song>): (r: seq<Song>)
    ensures |r| <= 1 && (r != [] <==> taken && s.Ok?) && (r != [] ==> r[0] == s.value)
  {
    if taken && s.Ok? then [s.value] else []
  }

  /** The songs the `/videos` loop should yield from entry `i` on, given the
      document of each entry: one for each entry that is not archived, in
      entry order, at its position. */
  function ExpectedVideos(archive: seq<string>, es: seq<Entry>, docs: seq<Doc>, i: nat, channel: string): (r: seq<Song>)
    requires |docs| == |es| && i <= |es|
    ensures |r| <= |es| - i
    decreases |es| - i
  {
    if i == |es| then []
    else
      Yield(es[i].url !in archive, VideoSong(docs[i], es[i].url, i, channel)) + ExpectedVideos(archive, es, docs, i + 1, channel)
  }

  /** Answering the fresh entry `i` keeps the rest of the entries answered,
      leaves entry `i` answered and archives nothing. */
  lemma AnsweredStep(w: World, env: Env, es: seq<Entry>, docs: seq<Doc>, i: nat)
    requires AllAnswered(w, env, es, docs, i) && i < |es| && es[i].url !in w.archive
    ensures var w1 := Resolve(w, env, es[i].url, false).world;
      && AllAnswered(w1, env, es, docs, i + 1) && w1.archive == w.archive
      && Answers(w1, env, es[i].url, docs[i])
  {
    ResolveAnswers(w, env, es[i].url, docs[i]);
  }

  /** One turn of the `/videos` loop over an answered entry: an archived
      entry adds nothing, a fresh one adds exactly its song and stays
      answered, and the entries after it stay answered. */
  lemma VideosTurn(w: World, env: Env, es: seq<Entry>, docs: seq<Doc>, i: nat, channel: string, acc: seq<Song>)
    returns (w1: World, t: seq<Song>)
    requires AllAnswered(w, env, es, docs, i) && VideosReady(w.archive, es, docs, i, channel) && i < |es|
    ensures VideosReady(w1.archive, es, docs, i + 1, channel)
    ensures t == Yield(es[i].url !in w.archive, VideoSong(docs[i], es[i].url, i, channel))
    ensures VideoStep(w, env, es[i], i, channel, acc) == Outcome(w1, Ok(acc + t))
    ensures w1.archive == w.archive && AllAnswered(w1, env, es, docs, i + 1)
    ensures es[i].url !in w.archive ==> Answers(w1, env, es[i].url, docs[i])
    ensures es[i].url !in w.archive ==> w1 == Resolve(w, env, es[i].url, false).world
    ensures CollectVideos(w, env, es, i, channel, acc) == CollectVideos(w1, env, es, i + 1, channel, acc + t)
    ensures i == |es| - 1 ==> CollectVideos(w, env, es, i, channel, acc).world == w1
    ensures ExpectedVideos(w.archive, es, docs, i, channel) == t + ExpectedVideos(w.archive, es, docs, i + 1, channel)
  {
    t := Yield(es[i].url !in w.archive, VideoSong(docs[i], es[i].url, i, channel));
    w1 := VideoStep(w, env, es[i], i, channel, acc).world;
    if es[i].url !in w.archive {
      ResolveAnswers(w, env, es[i].url, docs[i]);
      AnsweredStep(w, env, es, docs, i);
    } else {
      assert acc + [] == acc;
    }
  }


  /** A loop that yields `rest` after `acc + t` yields `t + rest` after `acc`. */
  lemma JoinOutcome(o: Outcome<seq<Song>>, acc: seq<Song>, t: seq<Song>, rest: seq<Song>)
    requires o.result == Ok(acc + t + rest)
    ensures o.result == Ok(acc + (t + rest))
  {
    assert acc + t + rest == acc + (t + rest);
  }

  /** When every entry that is not archived is answered and makes a song, the
      `/videos` loop yields exactly the expected songs and archives nothing. */
  lemma {:induction false} CollectVideosComplete(w: World, env: Env, es: seq<Entry>, docs: seq<Doc>, i: nat,
                                                 channel: string, acc: seq<Song>)
    requires AllAnswered(w, env, es, docs, i) && VideosReady(w.archive, es, docs, i, channel)
    ensures var o := CollectVideos(w, env, es, i, channel, acc);
      && o.result == Ok(acc + ExpectedVideos(w.archive, es, docs, i, channel))
      && o.world.archive == w.archive
    decreases |es| - i
  {
    if i == |es| {
      assert acc + [] == acc;
    } else {
      var w1, t := VideosTurn(w, env, es, docs, i, channel, acc);
      var rest := ExpectedVideos(w.archive, es, docs, i + 1, channel);
      CollectVideosComplete(w1, env, es, docs, i + 1, channel, acc + t);
      JoinOutcome(CollectVideos(w1, env, es, i + 1, channel, acc + t), acc, t, rest);
    }
  }

  /** Under the same conditions the loop reaches its last turn with every
      entry from there on still answered and nothing archived. */
  lemma {:induction false} ReachLast(w: World, env: Env, es: seq<Entry>, docs: seq<Doc>, i: nat,
                                     channel: string, acc: seq<Song>) returns (wl: World, al: seq<Song>)
    requires AllAnswered(w, env, es, docs, i) && VideosReady(w.archive, es, docs, i, channel) && i < |es|
    ensures CollectVideos(w, env, es, i, channel, acc) == CollectVideos(wl, env, es, |es| - 1, channel, al)
    ensures AllAnswered(wl, env, es, docs, |es| - 1) && VideosReady(wl.archive, es, docs, |es| - 1, channel)
    ensures wl.archive == w.archive
    decreases |es| - i
  {
    if i == |es| - 1 {
      wl, al := w, acc;
    } else {
      var w1, t := VideosTurn(w, env, es, docs, i, channel, acc);
      wl, al := ReachLast(w1, env, es, docs, i + 1, channel, acc + t);
    }
  }

  /** A last entry that is not archived is still answered once the loop is
      over: its row is the last one the loop writes. */
  lemma LoopLeavesLastAnswered(w: World, env: Env, es: seq<Entry>, docs: seq<Doc>, channel: string, acc: seq<Song>)
    requires AllAnswered(w, env, es, docs, 0) && VideosReady(w.archive, es, docs, 0, channel)
    requires |es| > 0 && es[|es| - 1].url !in w.archive
    ensures Answers(CollectVideos(w, env, es, 0, channel, acc).world, env, es[|es| - 1].url, docs[|es| - 1])
  {
    var wl, al := ReachLast(w, env, es, docs, 0, channel, acc);
    var w2 := LastTurn(wl, env, es, docs, channel, al);
    ResolveAnswers(wl, env, es[|es| - 1].url, docs[|es| - 1]);
    SameWorldAnswers(CollectVideos(w, env, es, 0, channel, acc), CollectVideos(wl, env, es, |es| - 1, channel, al),
                     w2, env, es[|es| - 1].url, docs[|es| - 1]);
  }

  /** The last turn of the loop leaves a fresh last entry answered. */
  lemma LastTurn(w: World, env: Env, es: seq<Entry>, docs: seq<Doc>, channel: string, acc: seq<Song>)
    returns (w1: World)
    requires |es| > 0 && AllAnswered(w, env, es, docs, |es| - 1) && VideosReady(w.archive, es, docs, |es| - 1, channel)
    requires es[|es| - 1].url !in w.archive
    ensures CollectVideos(w, env, es, |es| - 1, channel, acc).world == w1
    ensures w1 == Resolve(w, env, es[|es| - 1].url, false).world
  {
    var t;
    w1, t := VideosTurn(w, env, es, docs, |es| - 1, channel, acc);
  }

  lemma SameWorldAnswers(o1: Outcome<seq<Song>>, o2: Outcome<seq<Song>>, w2: World, env: Env, url: string, d: Doc)
    requires o1 == o2 && o2.world == w2 && Answers(w2, env, url, d)
    ensures Answers(o1.world, env, url, d)
  {
  }



  /** The songs an album playlist should yield from entry `i` on: one for
      each video that is not archived, in playlist order, at its position. */
  function ExpectedTracks(archive: seq<string>, es: seq<Entry>, docs: seq<Doc>, i: nat, playlist: Doc,
                          albumUrl: string, channel: string): (r: seq<Song>)
    requires |docs| == |es| && i <= |es|
    ensures |r| <= |es| - i
    decreases |es| - i
  {
    if i == |es| then []
    else
      Yield(es[i].url !in archive, TrackSong(docs[i], playlist, es[i].url, i, albumUrl, channel))
        + ExpectedTracks(archive, es, docs, i + 1, playlist, albumUrl, channel)
  }

  /** One turn of the album loop over an answered entry: an archived entry
      with a title adds nothing, a fresh one adds exactly its song, and the
      entries after it stay answered. */
  lemma TracksTurn(w: World, env: Env, es: seq<Entry>, docs: seq<Doc>, i: nat, playlist: Doc, albumUrl: string,
                   channel: string, acc: seq<Song>) returns (w1: World, t: seq<Song>)
    requires AllAnswered(w, env, es, docs, i) && TracksReady(w.archive, es, docs, i, playlist, albumUrl, channel)
    requires i < |es|
    ensures TracksReady(w1.archive, es, docs, i + 1, playlist, albumUrl, channel)
    ensures t == Yield(es[i].url !in w.archive, TrackSong(docs[i], playlist, es[i].url, i, albumUrl, channel))
    ensures TrackStep(w, env, es[i], i, playlist, albumUrl, channel, acc) == Outcome(w1, Ok(acc + t))
    ensures w1.archive == w.archive && AllAnswered(w1, env, es, docs, i + 1)
    ensures CollectTracks(w, env, es, i, playlist, albumUrl, channel, acc) ==
            CollectTracks(w1, env, es, i + 1, playlist, albumUrl, channel, acc + t)
    ensures ExpectedTracks(w.archive, es, docs, i, playlist, albumUrl, channel) ==
            t + ExpectedTracks(w.archive, es, docs, i + 1, playlist, albumUrl, channel)
  {
    t := Yield(es[i].url !in w.archive, TrackSong(docs[i], playlist, es[i].url, i, albumUrl, channel));
    w1 := TrackStep(w, env, es[i], i, playlist, albumUrl, channel, acc).world;
    if es[i].url !in w.archive {
      ResolveAnswers(w, env, es[i].url, docs[i]);
      AnsweredStep(w, env, es, docs, i);
    } else {
      assert acc + [] == acc;
    }
  }

  /** When every video of an album playlist that is not archived is answered
      and makes a song, and every archived one has a title for the log line,
      the album loop yields exactly the expected songs and archives nothing. */
  lemma {:induction false} CollectTracksComplete(w: World, env: Env, es: seq<Entry>, docs: seq<Doc>, i: nat,
                                                 playlist: Doc, albumUrl: string, channel: string, acc: seq<Song>)
    requires AllAnswered(w, env, es, docs, i) && TracksReady(w.archive, es, docs, i, playlist, albumUrl, channel)
    ensures var o := CollectTracks(w, env, es, i, playlist, albumUrl, channel, acc);
      && o.result == Ok(acc + ExpectedTracks(w.archive, es, docs, i, playlist, albumUrl, channel))
      && o.world.archive == w.archive
    decreases |es| - i
  {
    if i == |es| {
      assert acc + [] == acc;
    } else {
      var w1, t := TracksTurn(w, env, es, docs, i, playlist, albumUrl, channel, acc);
      var rest := ExpectedTracks(w.archive, es, docs, i + 1, playlist, albumUrl, channel);
      CollectTracksComplete(w1, env, es, docs, i + 1, playlist, albumUrl, channel, acc + t);
      JoinOutcome(CollectTracks(w1, env, es, i + 1, playlist, albumUrl, channel, acc + t), acc, t, rest);
    }
  }


  /** The archive check in action: of three answered videos, the middle one
      archived, the `/videos` loop yields the songs of the first and the third,
      in that order, at positions 0 and 2. */
  lemma ArchivedMiddleSkipped(w: World, env: Env, a: Entry, b: Entry, c: Entry, da: Doc, db: Doc, dc: Doc,
                              channel: string)
    requires a.url !in w.archive && b.url in w.archive && c.url !in w.archive
    requires Answers(w, env, a.url, da) && Answers(w, env, c.url, dc) && KeyOf(a.url) != KeyOf(c.url)
    requires VideoSong(da, a.url, 0, channel).Ok? && VideoSong(dc, c.url, 2, channel).Ok?
    ensures CollectVideos(w, env, [a, b, c], 0, channel, []).result ==
      Ok([VideoSong(da, a.url, 0, channel).value, VideoSong(dc, c.url, 2, channel).value])
  {
    var es, docs := [a, b, c], [da, db, dc];
    ThreeAnswered(w, env, a, b, c, da, db, dc);
    ThreeMakeSongs(w.archive, a, b, c, da, db, dc, channel);
    CollectVideosComplete(w, env, es, docs, 0, channel, []);
    ThreeExpected(w.archive, a, b, c, da, db, dc, channel);
    assert [] + ExpectedVideos(w.archive, es, docs, 0, channel) == ExpectedVideos(w.archive, es, docs, 0, channel);
  }

  lemma ThreeAnswered(w: World, env: Env, a: Entry, b: Entry, c: Entry, da: Doc, db: Doc, dc: Doc)
    requires a.url !in w.archive && b.url in w.archive && c.url !in w.archive
    requires Answers(w, env, a.url, da) && Answers(w, env, c.url, dc) && KeyOf(a.url) != KeyOf(c.url)
    ensures AllAnswered(w, env, [a, b, c], [da, db, dc], 0)
  {
    var es, docs := [a, b, c], [da, db, dc];
    assert es[0] == a && es[1] == b && es[2] == c && docs[0] == da && docs[2] == dc;
    forall j, k | 0 <= j < k < 3 && es[j].url !in w.archive && es[k].url !in w.archive
      ensures KeyOf(es[j].url) != KeyOf(es[k].url)
    {
      assert j == 0 && k == 2;
    }
  }

  lemma ThreeMakeSongs(archive: seq<string>, a: Entry, b: Entry, c: Entry, da: Doc, db: Doc, dc: Doc, channel: string)
    requires a.url !in archive && b.url in archive && c.url !in archive
    requires VideoSong(da, a.url, 0, channel).Ok? && VideoSong(dc, c.url, 2, channel).Ok?
    ensures VideosReady(archive, [a, b, c], [da, db, dc], 0, channel)
  {
    var es, docs := [a, b, c], [da, db, dc];
    forall j | 0 <= j < |es| && es[j].url !in archive
      ensures VideoSong(docs[j], es[j].url, j, channel).Ok?
    {
      assert j == 0 || j == 2;
    }
  }


  lemma ThreeExpected(archive: seq<string>, a: Entry, b: Entry, c: Entry, da: Doc, db: Doc, dc: Doc, channel: string)
    requires a.url !in archive && b.url in archive && c.url !in archive
    requires VideoSong(da, a.url, 0, channel).Ok? && VideoSong(dc, c.url, 2, channel).Ok?
    ensures ExpectedVideos(archive, [a, b, c], [da, db, dc], 0, channel) ==
      [VideoSong(da, a.url, 0, channel).value, VideoSong(dc, c.url, 2, channel).value]
  {
    var es, docs := [a, b, c], [da, db, dc];
    assert es[0] == a && es[1] == b && es[2] == c && docs[0] == da && docs[2] == dc;
    var sa, sc := VideoSong(da, a.url, 0, channel).value, VideoSong(dc, c.url, 2, channel).value;
    var e2 := ExpectedVideos(archive, es, docs, 2, channel);
    assert e2 == [sc] + ExpectedVideos(archive, es, docs, 3, channel) == [sc];
    assert ExpectedVideos(archive, es, docs, 1, channel) == [] + e2;
    assert ExpectedVideos(archive, es, docs, 0, channel) == [sa] + [sc];
  }

  // ---------------------------------------------------------------------
  // The topic channel loop (main.py:327-375)

  /** The `YoutubeTab` branch (main.py:328-351) for the outer entry `e`: its
      playlist is fetched without an archive check and without testing the
      result, so `False` raises `TypeError`. Its videos are collected like the
      `/videos` loop, and the loop variable `entry` ends up bound to the last
      video entry, which this function returns beside the songs. */
  function TabPlaylist(w: World, env: Env, e: Entry, channel: string, acc: seq<Song>): (o: Outcome<(Entry, seq<Song>)>)
    requires e.ieKey.Present?
    ensures Extends(w, o.world) && o.world.files == w.files
    ensures e.ieKey.value != "YoutubeTab" ==> o == Outcome(w, Ok((e, acc)))
  {
    if e.ieKey.value != "YoutubeTab" then Outcome(w, Ok((e, acc)))
    else
      var g := Resolve(w, env, e.url, false);
      if g.result.Raise? then Outcome(g.world, Raise(g.result.fault))
      else if g.result.value.None? then Outcome(g.world, Raise(TypeError))
      else
        var pl := g.result.value.value;
        if pl.entries.Missing? then Outcome(g.world, Raise(KeyError))
        else
          var pes := pl.entries.value;
          var t := CollectVideos(g.world, env, pes, 0, channel, acc);
          if t.result.Raise? then Outcome(t.world, Raise(t.result.fault))
          else Outcome(t.world, Ok((if |pes| > 0 then pes[|pes| - 1] else e, t.result.value)))
  }

  /** The `Youtube` branch (main.py:353-375) for the entry `e` the loop
      variable is bound to: a direct video keeps the default index. */
  function DirectVideo(w: World, env: Env, e: Entry, channel: string, acc: seq<Song>): (o: Outcome<seq<Song>>)
    ensures Extends(w, o.world) && o.world.files == w.files
  {
    if e.ieKey.Missing? then Outcome(w, Raise(KeyError))
    else if e.ieKey.value != "Youtube" || e.url in w.archive then Outcome(w, Ok(acc))
    else
      var g := Resolve(w, env, e.url, false);
      if g.result.Raise? then Outcome(g.world, Raise(g.result.fault))
      else if g.result.value.None? then Outcome(g.world, Ok(acc))
      else
        var s := VideoSong(g.result.value.value, e.url, DefaultIndex, channel);
        if s.Raise? then Outcome(g.world, Raise(s.fault))
        else Outcome(g.world, Ok(acc + [s.value]))
  }

  /** One pass of the topic loop for the outer entry `e`. */
  function TopicStep(w: World, env: Env, e: Entry, channel: string, acc: seq<Song>): (o: Outcome<seq<Song>>)
    ensures Extends(w, o.world) && o.world.files == w.files
  {
    if e.ieKey.Missing? then Outcome(w, Raise(KeyError))
    else
      var t := TabPlaylist(w, env, e, channel, acc);
      if t.result.Raise? then Outcome(t.world, Raise(t.result.fault))
      else DirectVideo(t.world, env, t.result.value.0, channel, t.result.value.1)
  }

  /** The loop over the topic channel's entries from `i` on. */
  function CollectTopic(w: World, env: Env, es: seq<Entry>, i: nat, channel: string, acc: seq<Song>): (o: Outcome<seq<Song>>)
    requires i <= |es|
    ensures Extends(w, o.world) && o.world.files == w.files
    decreases |es| - i
  {
    if i == |es| then Outcome(w, Ok(acc))
    else
      var st := TopicStep(w, env, es[i], channel, acc);
      if st.result.Raise? then st
      else CollectTopic(st.world, env, es, i + 1, channel, st.result.value)
  }

  lemma TabPlaylistSound(w: World, env: Env, e: Entry, channel: string, acc: seq<Song>)
    requires e.ieKey.Present?
    ensures var o := TabPlaylist(w, env, e, channel, acc);
      o.result.Ok? ==> Kept(acc, o.result.value.1, channel, w.archive)
  {
    if e.ieKey.value == "YoutubeTab" {
      var g := Resolve(w, env, e.url, false);
      if g.result.Ok? && g.result.value.Some? && g.result.value.value.entries.Present? {
        var pes := g.result.value.value.entries.value;
        var t := CollectVideos(g.world, env, pes, 0, channel, acc);
        CollectVideosSound(g.world, env, pes, 0, channel, acc);
        if t.result.Ok? {
          KeptJoin(acc, acc, t.result.value, channel, w.archive, g.world.archive);
        }
      }
    } else {
      assert acc[|acc|..] == [];
    }
  }

  lemma DirectVideoSound(w: World, env: Env, e: Entry, channel: string, acc: seq<Song>)
    ensures var o := DirectVideo(w, env, e, channel, acc);
      o.result.Ok? ==> Kept(acc, o.result.value, channel, w.archive)
  {
    var o := DirectVideo(w, env, e, channel, acc);
    if o.result.Ok? && o.result.value != acc {
      assert o.result.value[|acc|..] == [o.result.value[|acc|]];
    }
  }

  lemma TopicStepSound(w: World, env: Env, e: Entry, channel: string, acc: seq<Song>)
    ensures var o := TopicStep(w, env, e, channel, acc);
      o.result.Ok? ==> Kept(acc, o.result.value, channel, w.archive)
  {
    if e.ieKey.Present? {
      var t := TabPlaylist(w, env, e, channel, acc);
      TabPlaylistSound(w, env, e, channel, acc);
      if t.result.Ok? {
        var d := DirectVideo(t.world, env, t.result.value.0, channel, t.result.value.1);
        DirectVideoSound(t.world, env, t.result.value.0, channel, t.result.value.1);
        if d.result.Ok? {
          KeptJoin(acc, t.result.value.1, d.result.value, channel, w.archive, t.world.archive);
        }
      }
    }
  }

  /** Every song the topic loop adds is for a video that was not archived and
      carries the channel's name. */
  lemma {:induction false} CollectTopicSound(w: World, env: Env, es: seq<Entry>, i: nat, channel: string, acc: seq<Song>)
    requires i <= |es|
    ensures var o := CollectTopic(w, env, es, i, channel, acc);
      o.result.Ok? ==> Kept(acc, o.result.value, channel, w.archive)
    decreases |es| - i
  {
    if i == |es| {
      assert acc[|acc|..] == [];
    } else {
      var st := TopicStep(w, env, es[i], channel, acc);
      TopicStepSound(w, env, es[i], channel, acc);
      if st.result.Ok? {
        var o := CollectTopic(st.world, env, es, i + 1, channel, st.result.value);
        CollectTopicSound(st.world, env, es, i + 1, channel, st.result.value);
        if o.result.Ok? {
          KeptJoin(acc, st.result.value, o.result.value, channel, w.archive, st.world.archive);
        }
      }
    }
  }

  /** Unlike every other child, a `YoutubeTab` playlist is fetched even when
      its URL is archived (main.py:328-329). */
  lemma ArchivedTabStillFetched(w: World, env: Env, es: seq<Entry>, i: nat, channel: string, acc: seq<Song>)
    requires i < |es| && es[i].ieKey == Present("YoutubeTab")
    requires LinkType(es[i].url).Some? && GetId(LinkType(es[i].url), es[i].url).Ok?
    requires Lookup(w.tables, LinkType(es[i].url).value, GetId(LinkType(es[i].url), es[i].url).value).None?
    ensures w.log + [Fetch(es[i].url)] <= CollectTopic(w, env, es, i, channel, acc).world.log
  {
    var e := es[i];
    var g := Resolve(w, env, e.url, false);
    assert g.world.log == w.log + [Fetch(e.url)];
    TabFetchesFirst(w, env, e, channel, acc);
    var st := TopicStep(w, env, e, channel, acc);
    assert g.world.log <= st.world.log;
  }

  /** The `YoutubeTab` branch starts with its provider call. */
  lemma TabFetchesFirst(w: World, env: Env, e: Entry, channel: string, acc: seq<Song>)
    requires e.ieKey == Present("YoutubeTab")
    ensures Resolve(w, env, e.url, false).world.log <= TabPlaylist(w, env, e, channel, acc).world.log
  {
  }

  /** The inner `/videos`-style loop over a one-video playlist. */
  lemma OneVideo(w: World, env: Env, v: Entry, channel: string)
    requires v.url !in w.archive
    requires Resolve(w, env, v.url, false).result.Ok? && Resolve(w, env, v.url, false).result.value.Some?
    requires VideoSong(Resolve(w, env, v.url, false).result.value.value, v.url, 0, channel).Ok?
    ensures var g := Resolve(w, env, v.url, false);
      CollectVideos(w, env, [v], 0, channel, []) ==
        Outcome(g.world, Ok([VideoSong(g.result.value.value, v.url, 0, channel).value]))
  {
    var g := Resolve(w, env, v.url, false);
    var s := VideoSong(g.result.value.value, v.url, 0, channel).value;
    var st := VideoStep(w, env, v, 0, channel, []);
    assert st.world == g.world;
    assert st.result == Ok([] + [s]);
    assert [] + [s] == [s];
    assert CollectVideos(w, env, [v], 0, channel, []) == CollectVideos(g.world, env, [v], 1, channel, [s]);
    assert CollectVideos(g.world, env, [v], 1, channel, [s]) == Outcome(g.world, Ok([s]));
  }

  /** A fresh last entry that makes a song contributes the last expected
      song, at the last position. */
  lemma {:induction false} ExpectedVideosLast(archive: seq<string>, es: seq<Entry>, docs: seq<Doc>, i: nat, channel: string)
    requires |docs| == |es| && i < |es|
    requires es[|es| - 1].url !in archive && VideoSong(docs[|es| - 1], es[|es| - 1].url, |es| - 1, channel).Ok?
    ensures EndsWith(ExpectedVideos(archive, es, docs, i, channel),
                     VideoSong(docs[|es| - 1], es[|es| - 1].url, |es| - 1, channel).value)
    decreases |es| - i
  {
    if i < |es| - 1 {
      var t := Yield(es[i].url !in archive, VideoSong(docs[i], es[i].url, i, channel));
      var rest := ExpectedVideos(archive, es, docs, i + 1, channel);
      ExpectedVideosUnfold(archive, es, docs, i, channel);
      ExpectedVideosLast(archive, es, docs, i + 1, channel);
      LastOfJoin(ExpectedVideos(archive, es, docs, i, channel), t, rest,
                 VideoSong(docs[|es| - 1], es[|es| - 1].url, |es| - 1, channel).value);
    } else {
      ExpectedVideosAtLast(archive, es, docs, channel);
      assert EndsWith([VideoSong(docs[|es| - 1], es[|es| - 1].url, |es| - 1, channel).value],
                      VideoSong(docs[|es| - 1], es[|es| - 1].url, |es| - 1, channel).value);
    }
  }

  lemma ExpectedVideosAtLast(archive: seq<string>, es: seq<Entry>, docs: seq<Doc>, channel: string)
    requires |docs| == |es| > 0
    requires es[|es| - 1].url !in archive && VideoSong(docs[|es| - 1], es[|es| - 1].url, |es| - 1, channel).Ok?
    ensures ExpectedVideos(archive, es, docs, |es| - 1, channel) ==
      [VideoSong(docs[|es| - 1], es[|es| - 1].url, |es| - 1, channel).value]
  {
    var t := Yield(true, VideoSong(docs[|es| - 1], es[|es| - 1].url, |es| - 1, channel));
    assert ExpectedVideos(archive, es, docs, |es| - 1, channel) == t + [];
  }


  lemma ExpectedVideosUnfold(archive: seq<string>, es: seq<Entry>, docs: seq<Doc>, i: nat, channel: string)
    requires |docs| == |es| && i < |es|
    ensures ExpectedVideos(archive, es, docs, i, channel) ==
      Yield(es[i].url !in archive, VideoSong(docs[i], es[i].url, i, channel)) + ExpectedVideos(archive, es, docs, i + 1, channel)
  {
  }

  /** `r` is non-empty and ends with `x`. */
  predicate EndsWith(r: seq<Song>, x: Song)
  {
    |r| > 0 && r[|r| - 1] == x
  }

  lemma LastOfJoin(whole: seq<Song>, t: seq<Song>, rest: seq<Song>, x: Song)
    requires whole == t + rest && EndsWith(rest, x)
    ensures EndsWith(whole, x)
  {
  }


  /** Because the inner loop rebinds `entry` (main.py:330), a topic playlist
      whose last video has `ie_key` `Youtube` yields that video twice: the
      playlist's videos come out as the `/videos` loop would give them, the
      last at its playlist position, and then the last once more, served from
      the cache, with the default index. */
  lemma TopicRepeatsLastTrack(w: World, env: Env, tab: Entry, channel: string,
                              w1: World, pl: Doc, pes: seq<Entry>, docs: seq<Doc>)
    requires tab.ieKey == Present("YoutubeTab")
    requires Resolve(w, env, tab.url, false) == Outcome(w1, Ok(Some(pl)))
    requires pl.entries == Present(pes) && |pes| > 0
    requires AllAnswered(w1, env, pes, docs, 0) && VideosReady(w1.archive, pes, docs, 0, channel)
    requires pes[|pes| - 1].ieKey == Present("Youtube") && pes[|pes| - 1].url !in w1.archive
    ensures var n, r := |pes|, CollectTopic(w, env, [tab], 0, channel, []).result;
      && r.Ok? && |r.value| >= 2
      && r.value[..|r.value| - 1] == ExpectedVideos(w1.archive, pes, docs, 0, channel)
      && Ok(r.value[|r.value| - 2]) == VideoSong(docs[n - 1], pes[n - 1].url, n - 1, channel)
      && Ok(r.value[|r.value| - 1]) == VideoSong(docs[n - 1], pes[n - 1].url, DefaultIndex, channel)
  {
    var n, v, vd := |pes|, pes[|pes| - 1], docs[|pes| - 1];
    var tw, e := TabAnswered(w, env, tab, channel, w1, pl, pes, docs);
    ExpectedVideosLast(w1.archive, pes, docs, 0, channel);
    assert VideoSong(vd, v.url, n - 1, channel).Ok?;
    var s := VideoSong(vd, v.url, DefaultIndex, channel).value;
    DirectAnswered(tw, env, v, vd, channel, e);
    var g := Resolve(tw, env, v.url, false);
    assert TopicStep(w, env, tab, channel, []) == Outcome(g.world, Ok(e + [s]));
    assert CollectTopic(w, env, [tab], 0, channel, []) == CollectTopic(g.world, env, [tab], 1, channel, e + [s]);
    LastTwo(e, s);
  }

  /** The `YoutubeTab` branch over an answered playlist: the videos come out
      as the `/videos` loop would give them, `entry` ends up on the last one,
      and that one is still answered afterwards. */
  lemma TabAnswered(w: World, env: Env, tab: Entry, channel: string, w1: World, pl: Doc, pes: seq<Entry>, docs: seq<Doc>)
    returns (tw: World, e: seq<Song>)
    requires tab.ieKey == Present("YoutubeTab")
    requires Resolve(w, env, tab.url, false) == Outcome(w1, Ok(Some(pl)))
    requires pl.entries == Present(pes) && |pes| > 0
    requires AllAnswered(w1, env, pes, docs, 0) && VideosReady(w1.archive, pes, docs, 0, channel)
    requires pes[|pes| - 1].url !in w1.archive
    ensures e == ExpectedVideos(w1.archive, pes, docs, 0, channel)
    ensures TabPlaylist(w, env, tab, channel, []) == Outcome(tw, Ok((pes[|pes| - 1], e)))
    ensures tw.archive == w1.archive && Answers(tw, env, pes[|pes| - 1].url, docs[|pes| - 1])
  {
    e := ExpectedVideos(w1.archive, pes, docs, 0, channel);
    CollectVideosComplete(w1, env, pes, docs, 0, channel, []);
    var t := CollectVideos(w1, env, pes, 0, channel, []);
    tw := t.world;
    NothingBefore(t, e);
    LoopLeavesLastAnswered(w1, env, pes, docs, channel, []);
  }

  /** A direct `Youtube` video that is answered and not archived is served
      from the cache and yields its song at the default index. */
  lemma DirectAnswered(w: World, env: Env, v: Entry, vd: Doc, channel: string, acc: seq<Song>)
    requires v.ieKey == Present("Youtube") && v.url !in w.archive && Answers(w, env, v.url, vd)
    requires VideoSong(vd, v.url, DefaultIndex, channel).Ok?
    ensures DirectVideo(w, env, v, channel, acc) ==
      Outcome(Resolve(w, env, v.url, false).world, Ok(acc + [VideoSong(vd, v.url, DefaultIndex, channel).value]))
  {
    ResolveAnswers(w, env, v.url, vd);
  }

  lemma NothingBefore(o: Outcome<seq<Song>>, e: seq<Song>)
    requires o.result == Ok([] + e)
    ensures o.result == Ok(e)
  {
    assert [] + e == e;
  }

  lemma LastTwo(e: seq<Song>, s: Song)
    requires |e| > 0
    ensures var r := e + [s];
      |r| >= 2 && r[..|r| - 1] == e && r[|r| - 2] == e[|e| - 1] && r[|r| - 1] == s
  {
    assert (e + [s])[..|e|] == e;
  }


  // ---------------------------------------------------------------------
  // get_songs

  /** The `channel` branch (main.py:245-321): the `/releases` and `/videos`
      tests are independent, so a URL with both runs both loops. */
  function ChannelSongs(w: World, env: Env, url: string, data: Doc, channel: string): (o: Outcome<seq<Song>>)
    ensures Extends(w, o.world) && o.world.files == w.files
  {
    var r1 :=
      if !Contains(url, "/releases") then Outcome(w, Ok([]))
      else if data.entries.Missing? then Outcome(w, Raise(KeyError))
      else CollectReleases(w, env, data.entries.value, 0, channel, []);
    if r1.result.Raise? || !Contains(url, "/videos") then r1
    else if data.entries.Missing? then Outcome(r1.world, Raise(KeyError))
    else CollectVideos(r1.world, env, data.entries.value, 0, channel, r1.result.value)
  }

  /** `get_songs(url)`. The root document comes from `get_info` with
      `refresh_cache_at_scan`; `False` or a document without `channel` gives
      no songs. The channel name must survive `clean_str` and the document
      must have `thumbnails`. Playlist and video URLs give no songs. */
  function Songs(w: World, env: Env, url: string): (o: Outcome<seq<Song>>)
    ensures Extends(w, o.world) && o.world.files == w.files
  {
    var g := Resolve(w, env, url, env.refreshAtScan);
    if g.result.Raise? then Outcome(g.world, Raise(g.result.fault))
    else if g.result.value.None? || g.result.value.value.channel.Missing? then Outcome(g.world, Ok([]))
    else
      var data := g.result.value.value;
      var channel := data.channel.value;
      if Cleaned(channel).Raise? then Outcome(g.world, Raise(IndexError))
      else if data.thumbnails.Missing? then Outcome(g.world, Raise(KeyError))
      else if LinkType(url) == Some(Channel) then ChannelSongs(g.world, env, url, data, channel)
      else if LinkType(url) == Some(ChannelAlt) then
        if data.entries.Missing? then Outcome(g.world, Raise(KeyError))
        else CollectTopic(g.world, env, data.entries.value, 0, channel, [])
      else Outcome(g.world, Ok([]))
  }

  /** The root is rejected, with no songs, when `get_info` gives `False` or a
      document without `channel` (main.py:231-233). */
  lemma RootRejected(w: World, env: Env, url: string)
    requires var g := Resolve(w, env, url, env.refreshAtScan);
      g.result.Ok? && (g.result.value.None? || g.result.value.value.channel.Missing?)
    ensures Songs(w, env, url) == Outcome(Resolve(w, env, url, env.refreshAtScan).world, Ok([]))
  {
  }

  /** Only channel and topic-channel URLs produce songs. */
  lemma OnlyChannelsYieldSongs(w: World, env: Env, url: string)
    requires LinkType(url) != Some(Channel) && LinkType(url) != Some(ChannelAlt)
    ensures Songs(w, env, url).result.Ok? ==> Songs(w, env, url).result.value == []
  {
  }

  lemma ChannelSongsSound(w: World, env: Env, url: string, data: Doc, channel: string)
    ensures var o := ChannelSongs(w, env, url, data, channel);
      o.result.Ok? ==> Kept([], o.result.value, channel, w.archive)
  {
    var r1 :=
      if !Contains(url, "/releases") then Outcome(w, Ok([]))
      else if data.entries.Missing? then Outcome(w, Raise(KeyError))
      else CollectReleases(w, env, data.entries.value, 0, channel, []);
    if Contains(url, "/releases") && data.entries.Present? {
      CollectReleasesSound(w, env, data.entries.value, 0, channel, []);
    } else {
      assert Kept([], [], channel, w.archive);
    }
    if r1.result.Ok? && Contains(url, "/videos") && data.entries.Present? {
      CollectVideosSound(r1.world, env, data.entries.value, 0, channel, r1.result.value);
      var o := CollectVideos(r1.world, env, data.entries.value, 0, channel, r1.result.value);
      if o.result.Ok? {
        KeptJoin([], r1.result.value, o.result.value, channel, w.archive, r1.world.archive);
      }
    }
  }

  /** Every song `get_songs` returns is for a URL that was not archived when
      it started, and all of them carry the root document's channel name. */
  lemma SongsSound(w: World, env: Env, url: string)
    ensures var o := Songs(w, env, url);
      o.result.Ok? ==>
        && Fresh(o.result.value, w.archive)
        && (forall s1, s2 :: s1 in o.result.value && s2 in o.result.value ==> s1.channel == s2.channel)
  {
    var g := Resolve(w, env, url, env.refreshAtScan);
    var o := Songs(w, env, url);
    if g.result.Ok? && g.result.value.Some? && g.result.value.value.channel.Present? {
      var data := g.result.value.value;
      var channel := data.channel.value;
      if LinkType(url) == Some(Channel) {
        ChannelSongsSound(g.world, env, url, data, channel);
      } else if LinkType(url) == Some(ChannelAlt) && data.entries.Present? {
        CollectTopicSound(g.world, env, data.entries.value, 0, channel, []);
      }
      if o.result.Ok? {
        assert o.result.value[0..] == o.result.value;
        assert Kept([], o.result.value, channel, g.world.archive);
      }
    }
  }

  /** For a `/videos` channel URL, each song's index is the position of its
      video in the channel's entries, in order, not a count of the songs
      kept (main.py:300-313). */
  lemma VideoIndicesArePositions(w: World, env: Env, url: string)
    requires LinkType(url) == Some(Channel) && !Contains(url, "/releases") && Contains(url, "/videos")
    ensures var g := Resolve(w, env, url, env.refreshAtScan);
      var o := Songs(w, env, url);
      o.result.Ok? && g.result.Ok? && g.result.value.Some? && g.result.value.value.entries.Present? ==>
        Positions(o.result.value, g.result.value.value.entries.value, 0, |g.result.value.value.entries.value|)
  {
    var g := Resolve(w, env, url, env.refreshAtScan);
    var o := Songs(w, env, url);
    if o.result.Ok? && g.result.Ok? && g.result.value.Some? && g.result.value.value.entries.Present? {
      var data := g.result.value.value;
      if data.channel.Present? {
        var channel := data.channel.value;
        var es := data.entries.value;
        var v := CollectVideos(g.world, env, es, 0, channel, []);
        assert ChannelSongs(g.world, env, url, data, channel) == v;
        assert o == v;
        CollectVideosSound(g.world, env, es, 0, channel, []);
        assert o.result.value[0..] == o.result.value;
      }
    }
  }
}
