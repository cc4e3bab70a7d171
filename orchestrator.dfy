/** `download_song` (main.py:381-442), the decision sequence that turns one
    song into an audio file, its tags and an album cover, and the target loop
    of `main` (main.py:444-463). Every call into the outside world is an
    `Effect` appended to the world's log; whether it succeeds is read from the
    `Env`. */
module Orchestrator {
  import opened Wrappers
  import opened Model
  import opened Text
  import opened Db
  import opened Sanitize
  import opened Tagging
  import opened Resolver
  import opened Flattener

  // ---------------------------------------------------------------------
  // Paths

  predicate Absolute(p: string)
  {
    |p| > 0 && p[0] == '/'
  }

  /** `os.path.join(a, b)` on POSIX: an absolute `b` replaces `a`; otherwise
      `b` is appended, after a `/` unless `a` is empty or already ends in one. */
  function PathJoin(a: string, b: string): string
  {
    if Absolute(b) then b
    else if |a| == 0 || a[|a| - 1] == '/' then a + b
    else a + "/" + b
  }

  /** The joined path ends with `b`; unless `b` is absolute it starts with
      `a`, and `b` follows a `/` when `a` is not empty. */
  lemma PathJoinShape(a: string, b: string)
    ensures var r := PathJoin(a, b);
      && |b| <= |r| && r[|r| - |b|..] == b
      && (Absolute(b) ==> r == b)
      && (!Absolute(b) ==> a <= r && |r| <= |a| + 1 + |b|)
      && (!Absolute(b) && |a| > 0 ==> |r| > |b| && r[|r| - |b| - 1] == '/')
  {
  }

  /** The paths `download_song` works with (main.py:395-398). */
  datatype Layout = Layout(dir: string, audio: string, noExt: string, cover: string)

  /** The cleaned channel, album and title, and the paths built from them.
      The three `clean_str` calls run before the `try` (main.py:389-391), so
      an `IndexError` from any of them escapes; the cleaned title is only
      printed. */
  function SongLayout(outputDir: string, song: Song): (r: Py<Layout>)
    ensures r.Raise? <==> Cleaned(StripProducers(song.channel)).Raise? || Cleaned(song.albumTitle).Raise?
                          || Cleaned(song.title).Raise?
    ensures r.Raise? ==> r.fault == IndexError
  {
    var channel := Cleaned(StripProducers(song.channel));
    var album := Cleaned(song.albumTitle);
    var title := Cleaned(song.title);
    if channel.Raise? then Raise(channel.fault)
    else if album.Raise? then Raise(album.fault)
    else if title.Raise? then Raise(title.fault)
    else
      var dir := PathJoin(PathJoin(outputDir, channel.value), album.value);
      Ok(Layout(dir, PathJoin(dir, song.id + ".ogg"), PathJoin(dir, song.id), PathJoin(dir, "cover.jpg")))
  }

  /** yt-dlp writes `noext.%(ext)s` remuxed to `ogg`, which is exactly the
      path `download_song` tests for existence: the existence test and the
      download agree on the file. */
  lemma NoExtThenOgg(dir: string, id: string)
    ensures PathJoin(dir, id) + ".ogg" == PathJoin(dir, id + ".ogg")
  {
    if Absolute(id) {
      assert Absolute(id + ".ogg");
    } else if |id| == 0 {
      assert !Absolute(".ogg");
    } else {
      assert !Absolute(id + ".ogg");
    }
  }

  /** A cleaned name has no `/`, so it is never an absolute path. */
  lemma CleanedNotAbsolute(s: string)
    requires Cleaned(s).Ok?
    ensures !Absolute(Cleaned(s).value)
  {
    var r := Cleaned(s).value;
    CleanedIsPathSafe(s);
    assert Reserved[4] == '/';
    if |r| > 0 {
      assert r[0] in r;
    }
  }

  /** A path ending in `.ogg` is not a path ending in `cover.jpg`. */
  lemma AudioIsNotCover(dir: string, id: string)
    ensures PathJoin(dir, id + ".ogg") != PathJoin(dir, "cover.jpg")
  {
    var a, c := PathJoin(dir, id + ".ogg"), PathJoin(dir, "cover.jpg");
    PathJoinShape(dir, id + ".ogg");
    PathJoinShape(dir, "cover.jpg");
    assert a[|a| - 4..] == ".ogg" by {
      assert a[|a| - |id + ".ogg"|..] == id + ".ogg";
    }
    assert c[|c| - 4..] == ".jpg" by {
      assert c[|c| - 9..] == "cover.jpg";
    }
    assert a[|a| - 3] != c[|c| - 3];
  }

  /** Everything `download_song` writes lies under `output_dir`: the cleaned
      channel and album names contain no `/`, so no join discards the
      directory. The audio file stays in the song's directory unless its id
      is an absolute path, and it is never the cover. */
  lemma LayoutUnderOutputDir(outputDir: string, song: Song)
    requires SongLayout(outputDir, song).Ok?
    ensures var l := SongLayout(outputDir, song).value;
      outputDir <= l.dir && l.dir <= l.cover && l.audio != l.cover &&
      (!Absolute(song.id) ==> l.dir <= l.audio) && l.audio == l.noExt + ".ogg"
  {
    var channel := Cleaned(StripProducers(song.channel)).value;
    var album := Cleaned(song.albumTitle).value;
    CleanedNotAbsolute(StripProducers(song.channel));
    CleanedNotAbsolute(song.albumTitle);
    var d0 := PathJoin(outputDir, channel);
    var dir := PathJoin(d0, album);
    PathJoinShape(outputDir, channel);
    PathJoinShape(d0, album);
    assert !Absolute("cover.jpg");
    PathJoinShape(dir, "cover.jpg");
    PathJoinShape(dir, song.id + ".ogg");
    NoExtThenOgg(dir, song.id);
    AudioIsNotCover(dir, song.id);
  }

  // ---------------------------------------------------------------------
  // The calls download_song makes

  /** `download_video(url, noext)` (main.py:177-207): on success the remuxed
      file exists; on failure the URL is archived. */
  function FetchAudio(w: World, env: Env, url: string, noExt: string): (r: (World, bool))
    ensures Extends(w, r.0) && r.0.log == w.log + [Download(url, noExt)]
    ensures r.1 <==> url in env.playable
    ensures r.1 ==> r.0.files == w.files + {noExt + ".ogg"} && r.0.archive == w.archive
    ensures !r.1 ==> r.0.files == w.files && r.0.archive == w.archive + [url]
  {
    var w1 := w.(log := w.log + [Download(url, noExt)]);
    if url in env.playable then (w1.(files := w1.files + {noExt + ".ogg"}), true)
    else (AddArchive(w1, url), false)
  }

  /** `download(url, path)` (main.py:161-175): an existing path counts as a
      success without a request. */
  function HttpGet(w: World, env: Env, url: string, path: string): (r: (World, bool))
    ensures Extends(w, r.0) && r.0.archive == w.archive
    ensures r.1 <==> path in w.files || url in env.reachable
    ensures r.0.files == if r.1 then w.files + {path} else w.files
    ensures path in w.files ==> r.0 == w
    ensures path !in w.files ==> r.0.log == w.log + [GetFile(url, path)]
  {
    if path in w.files then (w, true)
    else
      var w1 := w.(log := w.log + [GetFile(url, path)]);
      if url in env.reachable then (w1.(files := w1.files + {path}), true) else (w1, false)
  }

  /** `add_metadata(path, song)` (main.py:209-223): the tags are written to
      the file. */
  function WriteTags(w: World, path: string, song: Song): (w': World)
  {
    w.(log := w.log + [Tag(path, TagsFor(song))])
  }

  /** The audio part of the `try` block (main.py:405-416). */
  function SaveAudio(w: World, env: Env, song: Song, l: Layout): (w': World)
    ensures Extends(w, w') && w.files <= w'.files
  {
    if l.audio !in w.files then
      var (w1, ok) := FetchAudio(w, env, song.url, l.noExt);
      if ok then WriteTags(w1, l.audio, song) else w1
    else if env.updateExisting then WriteTags(w, l.audio, song)
    else w
  }

  /** The cover part of the `try` block (main.py:418-440). A song always has
      a thumbnail record, so the `!= ''` test always passes. When the first
      download fails, the album is fetched again with `force_update`; a
      `False` result, missing or too few thumbnails raise inside the `try`
      and are swallowed, keeping whatever `get_info` already changed. */
  function SaveCover(w: World, env: Env, song: Song, l: Layout): (w': World)
    ensures Extends(w, w') && w.files <= w'.files
  {
    if l.cover in w.files then w
    else
      var (w1, ok) := HttpGet(w, env, song.albumThumbnail.url, l.cover);
      if ok then w1.(log := w1.log + [Crop(l.cover)])
      else
        var g := Resolve(w1, env, song.albumUrl, true);
        if g.result.Raise? || g.result.value.None? then g.world
        else
          var d := g.result.value.value;
          if d.thumbnails.Missing? || |d.thumbnails.value| < 2 then g.world
          else
            var (w2, ok2) := HttpGet(g.world, env, d.thumbnails.value[|d.thumbnails.value| - 2].url, l.cover);
            if ok2 then w2.(log := w2.log + [Crop(l.cover)]) else w2
  }

  /** `download_song(song)`. An archived song is left alone. The channel is
      stripped of producer markers before anything else, so the tags see the
      stripped name. A dry run stops after the paths are computed. */
  function DownloadSong(w: World, env: Env, song: Song): (o: Outcome<()>)
    ensures Extends(w, o.world) && w.files <= o.world.files
    ensures o.result.Raise? ==> o.world == w && o.result.fault == IndexError
  {
    if song.url in w.archive then Outcome(w, Ok(()))
    else
      var stripped := song.(channel := StripProducers(song.channel));
      var l := SongLayout(env.outputDir, song);
      if l.Raise? then Outcome(w, Raise(l.fault))
      else if env.dryRun then Outcome(w, Ok(()))
      else
        var w1 := SaveAudio(w, env, stripped, l.value);
        Outcome(SaveCover(w1, env, stripped, l.value), Ok(()))
  }

  // ---------------------------------------------------------------------
  // What download_song promises

  /** An archived song is not touched (main.py:384-385). */
  lemma ArchivedSongUntouched(w: World, env: Env, song: Song)
    requires song.url in w.archive
    ensures DownloadSong(w, env, song) == Outcome(w, Ok(()))
  {
  }

  /** A dry run computes the paths and changes nothing. */
  lemma DryRunChangesNothing(w: World, env: Env, song: Song)
    requires env.dryRun
    ensures DownloadSong(w, env, song).world == w
  {
  }

  /** The effects of the cover part: image downloads, provider calls and
      crops, nothing else. */
  ghost predicate CoverEffects(log: seq<Effect>, from: nat)
  {
    forall j :: from <= j < |log| ==> log[j].GetFile? || log[j].Fetch? || log[j].Crop?
  }

  lemma SaveCoverEffects(w: World, env: Env, song: Song, l: Layout)
    ensures CoverEffects(SaveCover(w, env, song, l).log, |w.log|)
    ensures l.cover in w.files ==> SaveCover(w, env, song, l) == w
  {
  }

  /** The new part of the log of a `download_song` call. */
  function NewEffects(w: World, o: Outcome<()>): (r: seq<Effect>)
    requires w.log <= o.world.log
    ensures w.log + r == o.world.log
  {
    o.world.log[|w.log|..]
  }

  /** The effects a `download_song` call adds after its audio part are
      cover effects. */
  lemma CoverTail(l0: seq<Effect>, l1: seq<Effect>, l2: seq<Effect>)
    requires l0 <= l1 <= l2 && CoverEffects(l2, |l1|)
    ensures forall e :: e in l2[|l0|..] ==> e in l1[|l0|..] || e.GetFile? || e.Fetch? || e.Crop?
  {
    forall e | e in l2[|l0|..] ensures e in l1[|l0|..] || e.GetFile? || e.Fetch? || e.Crop? {
      var j :| 0 <= j < |l2[|l0|..]| && l2[|l0|..][j] == e;
      if |l0| + j < |l1| {
        assert l1[|l0|..][j] == e;
      } else {
        assert l2[|l0| + j] == e;
      }
    }
  }

  /** A `download_song` call that gets past the ledger, the paths and the
      dry-run test runs the audio part, then the cover part. */
  lemma Proceeds(w: World, env: Env, song: Song)
    requires song.url !in w.archive && !env.dryRun && SongLayout(env.outputDir, song).Ok?
    ensures var stripped := song.(channel := StripProducers(song.channel));
      var l := SongLayout(env.outputDir, song).value;
      DownloadSong(w, env, song).world == SaveCover(SaveAudio(w, env, stripped, l), env, stripped, l)
  {
  }

  /** The log entries the audio part adds, exactly. */
  lemma SaveAudioLog(w: World, env: Env, song: Song, l: Layout)
    ensures var w' := SaveAudio(w, env, song, l);
      var d, t := Download(song.url, l.noExt), Tag(l.audio, TagsFor(song));
      && (l.audio !in w.files && song.url in env.playable ==> w'.log == w.log + [d, t])
      && (l.audio !in w.files && song.url !in env.playable ==> w'.log == w.log + [d])
      && (l.audio in w.files && env.updateExisting ==> w'.log == w.log + [t])
      && (l.audio in w.files && !env.updateExisting ==> w' == w)
  {
  }

  /** The audio and cover parts over an existing `.ogg` file. */
  lemma ExistingAudioParts(w: World, env: Env, song: Song, l: Layout)
    requires l.audio in w.files
    ensures var w' := SaveCover(SaveAudio(w, env, song, l), env, song, l);
      var added := w'.log[|w.log|..];
      (forall e :: e in added ==> !e.Download?) &&
      ((exists e :: e in added && e.Tag?) <==> env.updateExisting)
  {
    var w1 := SaveAudio(w, env, song, l);
    var w2 := SaveCover(w1, env, song, l);
    SaveAudioLog(w, env, song, l);
    SaveCoverEffects(w1, env, song, l);
    CoverTail(w.log, w1.log, w2.log);
    if env.updateExisting {
      assert w1.log[|w.log|..] == [Tag(l.audio, TagsFor(song))];
      assert w2.log[|w.log|..][0] == Tag(l.audio, TagsFor(song));
    } else {
      assert w1.log[|w.log|..] == [];
    }
  }

  /** When the `.ogg` file already exists, nothing is downloaded, and the
      tags are rewritten exactly when `update_metadata_existing` is set
      (main.py:406-416). */
  lemma ExistingAudioNotDownloaded(w: World, env: Env, song: Song)
    requires song.url !in w.archive && !env.dryRun
    requires SongLayout(env.outputDir, song).Ok? && SongLayout(env.outputDir, song).value.audio in w.files
    ensures var o := DownloadSong(w, env, song);
      var added := NewEffects(w, o);
      (forall e :: e in added ==> !e.Download?) &&
      ((exists e :: e in added && e.Tag?) <==> env.updateExisting)
  {
    Proceeds(w, env, song);
    ExistingAudioParts(w, env, song.(channel := StripProducers(song.channel)), SongLayout(env.outputDir, song).value);
  }

  /** A failed audio download archives the song's URL (main.py:206). */
  lemma FailedDownloadArchives(w: World, env: Env, song: Song)
    requires song.url !in w.archive && !env.dryRun && song.url !in env.playable
    requires SongLayout(env.outputDir, song).Ok? && SongLayout(env.outputDir, song).value.audio !in w.files
    ensures song.url in DownloadSong(w, env, song).world.archive
    ensures Download(song.url, SongLayout(env.outputDir, song).value.noExt) in NewEffects(w, DownloadSong(w, env, song))
  {
    var l := SongLayout(env.outputDir, song).value;
    var stripped := song.(channel := StripProducers(song.channel));
    var w1 := SaveAudio(w, env, stripped, l);
    assert w1.archive == w.archive + [song.url];
    assert song.url in w1.archive;
    var o := DownloadSong(w, env, song);
    assert w1.log[|w.log|] == Download(song.url, l.noExt);
    assert o.world.log[|w.log|] == Download(song.url, l.noExt);
  }

  /** A successful download leaves the `.ogg` file in place, so running
      `download_song` again for the same song downloads nothing. */
  lemma DownloadedSongNotDownloadedAgain(w: World, env: Env, song: Song)
    requires song.url !in w.archive && !env.dryRun && song.url in env.playable
    requires SongLayout(env.outputDir, song).Ok?
    ensures var o := DownloadSong(w, env, song);
      var o2 := DownloadSong(o.world, env, song);
      SongLayout(env.outputDir, song).value.audio in o.world.files &&
      forall e :: e in NewEffects(o.world, o2) ==> !e.Download?
  {
    var l := SongLayout(env.outputDir, song).value;
    LayoutUnderOutputDir(env.outputDir, song);
    var o := DownloadSong(w, env, song);
    var stripped := song.(channel := StripProducers(song.channel));
    var w1 := SaveAudio(w, env, stripped, l);
    assert l.audio in w1.files;
    if song.url !in o.world.archive {
      ExistingAudioNotDownloaded(o.world, env, song);
    }
  }

  /** A cover that already exists is neither downloaded nor cropped again. */
  lemma ExistingCoverKept(w: World, env: Env, song: Song)
    requires song.url !in w.archive && !env.dryRun
    requires SongLayout(env.outputDir, song).Ok? && SongLayout(env.outputDir, song).value.cover in w.files
    ensures forall e :: e in NewEffects(w, DownloadSong(w, env, song)) ==> !e.GetFile? && !e.Crop? && !e.Fetch?
  {
    var l := SongLayout(env.outputDir, song).value;
    var stripped := song.(channel := StripProducers(song.channel));
    var w1 := SaveAudio(w, env, stripped, l);
    SaveCoverEffects(w1, env, stripped, l);
    assert DownloadSong(w, env, song).world == w1;
    SaveAudioEffects(w, env, stripped, l);
    var added := w1.log[|w.log|..];
    forall e | e in added ensures !e.GetFile? && !e.Crop? && !e.Fetch? {
      var j :| 0 <= j < |added| && added[j] == e;
      assert w1.log[|w.log| + j] == e;
    }
  }

  /** The effects of the audio part: the download of the song's URL and
      tag writes to its `.ogg` file. */
  ghost predicate AudioEffects(log: seq<Effect>, from: nat, song: Song, l: Layout)
  {
    forall j :: from <= j < |log| ==> log[j] == Download(song.url, l.noExt) || log[j] == Tag(l.audio, TagsFor(song))
  }

  lemma SaveAudioEffects(w: World, env: Env, song: Song, l: Layout)
    ensures AudioEffects(SaveAudio(w, env, song, l).log, |w.log|, song, l)
  {
  }

  /** The audio and cover parts when the first cover download succeeds. */
  lemma FirstCoverParts(w: World, env: Env, song: Song, l: Layout)
    requires l.cover !in w.files && l.cover != l.audio && l.audio == l.noExt + ".ogg"
    requires song.albumThumbnail.url in env.reachable
    ensures var w' := SaveCover(SaveAudio(w, env, song, l), env, song, l);
      l.cover in w'.files && w'.log[|w'.log| - 1] == Crop(l.cover) &&
      forall e :: e in w'.log[|w.log|..] ==> !e.Fetch?
  {
    var w1 := SaveAudio(w, env, song, l);
    SaveAudioEffects(w, env, song, l);
    assert l.cover !in w1.files;
    var w2 := HttpGet(w1, env, song.albumThumbnail.url, l.cover).0;
    var w3 := SaveCover(w1, env, song, l);
    assert w3 == w2.(log := w2.log + [Crop(l.cover)]);
    var head := w1.log[|w.log|..];
    assert w3.log[|w.log|..] == head + [GetFile(song.albumThumbnail.url, l.cover), Crop(l.cover)];
    forall e | e in head ensures !e.Fetch? {
      var j :| 0 <= j < |head| && head[j] == e;
      assert w1.log[|w.log| + j] == e;
    }
  }

  /** A cover whose first download succeeds is cropped, and the album is not
      fetched again. */
  lemma CoverDownloadedAndCropped(w: World, env: Env, song: Song)
    requires song.url !in w.archive && !env.dryRun
    requires SongLayout(env.outputDir, song).Ok?
    requires SongLayout(env.outputDir, song).value.cover !in w.files && song.albumThumbnail.url in env.reachable
    ensures var l := SongLayout(env.outputDir, song).value;
      var o := DownloadSong(w, env, song);
      l.cover in o.world.files && o.world.log[|o.world.log| - 1] == Crop(l.cover) &&
      forall e :: e in NewEffects(w, o) ==> !e.Fetch?
  {
    LayoutUnderOutputDir(env.outputDir, song);
    Proceeds(w, env, song);
    FirstCoverParts(w, env, song.(channel := StripProducers(song.channel)), SongLayout(env.outputDir, song).value);
  }

  /** Every audio download of the two parts is for the song's URL, and every
      tag write is for its `.ogg` file. */
  lemma PartsEffects(w: World, env: Env, song: Song, l: Layout)
    ensures var w' := SaveCover(SaveAudio(w, env, song, l), env, song, l);
      forall e :: e in w'.log[|w.log|..] && (e.Download? || e.Tag?) ==>
        e == Download(song.url, l.noExt) || e == Tag(l.audio, TagsFor(song))
  {
    var w1 := SaveAudio(w, env, song, l);
    var w2 := SaveCover(w1, env, song, l);
    SaveAudioEffects(w, env, song, l);
    SaveCoverEffects(w1, env, song, l);
    CoverTail(w.log, w1.log, w2.log);
    var head := w1.log[|w.log|..];
    forall e | e in head ensures e == Download(song.url, l.noExt) || e == Tag(l.audio, TagsFor(song)) {
      var j :| 0 <= j < |head| && head[j] == e;
      assert w1.log[|w.log| + j] == e;
    }
  }

  /** Every audio download in a `download_song` call is for the song's own
      URL, which was not archived, and every tag write is for its `.ogg`
      file with the song's tags, the channel stripped. */
  lemma DownloadSongEffects(w: World, env: Env, song: Song)
    ensures var o := DownloadSong(w, env, song);
      forall e :: e in NewEffects(w, o) && (e.Download? || e.Tag?) ==>
        song.url !in w.archive && SongLayout(env.outputDir, song).Ok? &&
        (e.Download? ==> e.url == song.url) &&
        (e.Tag? ==> e.path == SongLayout(env.outputDir, song).value.audio &&
                    e.tags == TagsFor(song.(channel := StripProducers(song.channel))))
  {
    var o := DownloadSong(w, env, song);
    var l := SongLayout(env.outputDir, song);
    if song.url !in w.archive && l.Ok? && !env.dryRun {
      Proceeds(w, env, song);
      PartsEffects(w, env, song.(channel := StripProducers(song.channel)), l.value);
    } else {
      assert o.world == w;
      assert NewEffects(w, o) == [];
    }
  }

  // ---------------------------------------------------------------------
  // main

  /** `get_list(file)`: every line stripped. */
  function GetList(lines: seq<string>): (r: seq<string>)
    ensures |r| == |lines|
  {
    seq(|lines|, i requires 0 <= i < |lines| => Strip(lines[i]))
  }

  /** A line of `list.txt` that `main` acts on: not blank and not a comment. */
  predicate IsTarget(t: string)
  {
    t != "" && t[0] != '#'
  }

  /** Every song of one target, in order, from song `j` on (main.py:461-463).
      A raise out of `download_song` ends the run. */
  function DownloadAll(w: World, env: Env, songs: seq<Song>, j: nat): (o: Outcome<()>)
    requires j <= |songs|
    ensures Extends(w, o.world) && w.files <= o.world.files
    decreases |songs| - j
  {
    if j == |songs| then Outcome(w, Ok(()))
    else
      var d := DownloadSong(w, env, songs[j]);
      if d.result.Raise? then d else DownloadAll(d.world, env, songs, j + 1)
  }

  /** One target line: skipped unless it is a target; otherwise its songs are
      collected and downloaded. */
  function TargetStep(w: World, env: Env, t: string): (o: Outcome<()>)
    ensures Extends(w, o.world) && w.files <= o.world.files
    ensures !IsTarget(t) ==> o == Outcome(w, Ok(()))
  {
    if !IsTarget(t) then Outcome(w, Ok(()))
    else
      var g := Songs(w, env, t);
      if g.result.Raise? then Outcome(g.world, Raise(g.result.fault))
      else DownloadAll(g.world, env, g.result.value, 0)
  }

  /** The target loop of `main` from line `i` on. */
  function RunTargets(w: World, env: Env, targets: seq<string>, i: nat): (o: Outcome<()>)
    requires i <= |targets|
    ensures Extends(w, o.world) && w.files <= o.world.files
    decreases |targets| - i
  {
    if i == |targets| then Outcome(w, Ok(()))
    else
      var st := TargetStep(w, env, targets[i]);
      if st.result.Raise? then st else RunTargets(st.world, env, targets, i + 1)
  }

  /** The start-up state: `db.init()`, then the archive file's lines appended
      to the in-memory archive. */
  function Start(w: World, archiveLines: seq<string>): (w': World)
    ensures w'.archive == w.archive + GetList(archiveLines)
    ensures w'.tables.Keys == w.tables.Keys + (set k | k in Kinds)
    ensures w'.files == w.files && w'.log == w.log && Extends(w, w')
  {
    CreateAllAdds(w.tables, Kinds);
    w.(tables := Initialised(w.tables), archive := w.archive + GetList(archiveLines))
  }

  /** The whole run: `db.init()` and `main()`. */
  function Run(w: World, env: Env, listLines: seq<string>, archiveLines: seq<string>): (o: Outcome<()>)
    ensures Extends(w, o.world) && w.files <= o.world.files
  {
    var w1 := Start(w, archiveLines);
    RunTargets(w1, env, GetList(listLines), 0)
  }

  // ---------------------------------------------------------------------
  // What main promises

  /** Blank and comment lines are skipped without any effect. */
  lemma SkippedLineIsNoop(w: World, env: Env, targets: seq<string>, i: nat)
    requires i < |targets| && !IsTarget(targets[i])
    ensures RunTargets(w, env, targets, i) == RunTargets(w, env, targets, i + 1)
  {
  }

  /** A line that is blank apart from whitespace is skipped. */
  lemma BlankLineSkipped(line: string)
    requires forall j :: 0 <= j < |line| ==> IsSpace(line[j])
    ensures !IsTarget(Strip(line))
  {
    var i := StripLeftSuffix(line);
    StripRightPrefix(StripLeft(line));
  }

  /** A line whose first non-space character is `#` is skipped, indented or
      not. */
  lemma CommentLineSkipped(line: string, i: nat)
    requires i < |line| && line[i] == '#' && forall j :: 0 <= j < i ==> IsSpace(line[j])
    ensures !IsTarget(Strip(line))
  {
    StripLeftKeepsHead(line, i);
    StripRightKeepsHead(StripLeft(line));
  }

  /** Stripping from the left stops at the first non-space character. */
  lemma {:induction false} StripLeftKeepsHead(s: string, i: nat)
    requires i < |s| && !IsSpace(s[i]) && forall j :: 0 <= j < i ==> IsSpace(s[j])
    ensures StripLeft(s) == s[i..]
    decreases i
  {
    if i > 0 {
      assert IsSpace(s[0]);
      StripLeftKeepsHead(s[1..], i - 1);
      assert s[1..][i - 1..] == s[i..];
    }
  }

  /** Stripping from the right keeps a non-space first character. */
  lemma {:induction false} StripRightKeepsHead(s: string)
    requires |s| > 0 && !IsSpace(s[0])
    ensures |StripRight(s)| > 0 && StripRight(s)[0] == s[0]
    decreases |s|
  {
    if IsSpace(s[|s| - 1]) {
      assert |s| > 1;
      StripRightKeepsHead(s[..|s| - 1]);
    }
  }
}
