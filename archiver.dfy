/** The archiver as the program runs it: module-level state (the `archive`
    list, the files on disk, the cache connection) updated in place by the
    functions of main.py. Every method is proved to do exactly what the
    functional model of the same function describes, so the properties
    proved there hold of these methods. */
module ArchiverApp {
  import opened Wrappers
  import opened Model
  import opened Text
  import opened Db
  import opened Classifier
  import opened Sanitize
  import opened Tagging
  import opened Resolver
  import opened Flattener
  import opened Orchestrator

  class Archiver {
    /** The `cache.db` connection. */
    const db: Cache
    /** The configuration and what the outside world answers. */
    const env: Env
    /** The module-level `archive` list. */
    var archive: seq<string>
    /** The paths that exist on disk. */
    var files: set<string>
    /** The calls made into the outside world so far. */
    var log: seq<Effect>

    /** The state the functional model describes. */
    function State(): (w: World)
      reads this, db
      ensures w.archive == archive && w.files == files && w.log == log && w.tables == db.tables
    {
      World(db.tables, archive, files, log)
    }

    /** A fresh process: the archive list starts empty. */
    constructor (cache: Cache, env: Env, files: set<string>)
      ensures this.db == cache && this.env == env
      ensures State() == World(cache.tables, [], files, [])
    {
      this.db := cache;
      this.env := env;
      this.archive := [];
      this.files := files;
      this.log := [];
    }

    /** `add_archive(url)` (main.py:65-69). */
    method AddArchive(url: string)
      modifies this
      ensures State() == Resolver.AddArchive(old(State()), url)
    {
      archive := archive + [url];
    }

    /** `get_info(url, force_update)` (main.py:97-143). */
    method GetInfo(url: string, force: bool) returns (r: Py<Option<Doc>>)
      modifies this, db
      ensures Outcome(State(), r) == Resolve(old(State()), env, url, force)
    {
      var kind := LinkType(url);
      var id := GetId(kind, url);
      if id.Raise? {
        return Raise(id.fault);
      }
      if kind.None? {
        return Ok(None);
      }
      var hit := db.GetEntry(kind.value, id.value);
      if hit.Some? && !force {
        return Ok(hit);
      }
      log := log + [Fetch(url)];
      if url !in env.provider {
        AddArchive(url);
        return Ok(None);
      }
      var doc := env.provider[url];
      var written;
      if force {
        written := db.UpdateEntry(kind.value, id.value, doc);
      } else {
        written := db.AddEntry(kind.value, id.value, doc);
      }
      if written.Raise? {
        AddArchive(url);
        return Ok(None);
      }
      return Ok(Some(doc));
    }

    /** The body of the loop over a list of videos for the entry `e` at
        position `index` (main.py:301-321). */
    method ScanVideo(e: Entry, index: nat, channel: string, acc: seq<Song>) returns (r: Py<seq<Song>>)
      modifies this, db
      ensures Outcome(State(), r) == VideoStep(old(State()), env, e, index, channel, acc)
    {
      if e.url in archive {
        return Ok(acc);
      }
      var vd := GetInfo(e.url, false);
      if vd.Raise? {
        return Raise(vd.fault);
      }
      if vd.value.None? {
        return Ok(acc);
      }
      var s := VideoSong(vd.value.value, e.url, index, channel);
      if s.Raise? {
        return Raise(s.fault);
      }
      return Ok(acc + [s.value]);
    }

    /** The loop over a list of videos (main.py:300-321, and main.py:330-351
        inside a topic channel's playlist), appending to `acc`. */
    method ScanVideos(es: seq<Entry>, channel: string, acc: seq<Song>) returns (r: Py<seq<Song>>)
      modifies this, db
      ensures Outcome(State(), r) == CollectVideos(old(State()), env, es, 0, channel, acc)
    {
      ghost var w0 := State();
      var songs := acc;
      var i := 0;
      while i < |es|
        invariant 0 <= i <= |es|
        invariant CollectVideos(State(), env, es, i, channel, songs) == CollectVideos(w0, env, es, 0, channel, acc)
      {
        var t := ScanVideo(es[i], i, channel, songs);
        if t.Raise? {
          return t;
        }
        songs := t.value;
        i := i + 1;
      }
      return Ok(songs);
    }

    /** The body of the loop over an album playlist for the video `e` at
        position `index` (main.py:272-295). The title of an archived video
        is read for the log message. */
    method ScanTrack(e: Entry, index: nat, playlist: Doc, albumUrl: string, channel: string, acc: seq<Song>)
      returns (r: Py<seq<Song>>)
      modifies this, db
      ensures Outcome(State(), r) == TrackStep(old(State()), env, e, index, playlist, albumUrl, channel, acc)
    {
      if e.url in archive {
        if e.title.Missing? {
          return Raise(KeyError);
        }
        return Ok(acc);
      }
      var vd := GetInfo(e.url, false);
      if vd.Raise? {
        return Raise(vd.fault);
      }
      if vd.value.None? {
        return Ok(acc);
      }
      var s := TrackSong(vd.value.value, playlist, e.url, index, albumUrl, channel);
      if s.Raise? {
        return Raise(s.fault);
      }
      return Ok(acc + [s.value]);
    }

    /** The loop over the videos of one album playlist (main.py:271-295). */
    method ScanTracks(es: seq<Entry>, playlist: Doc, albumUrl: string, channel: string, acc: seq<Song>)
      returns (r: Py<seq<Song>>)
      modifies this, db
      ensures Outcome(State(), r) == CollectTracks(old(State()), env, es, 0, playlist, albumUrl, channel, acc)
    {
      ghost var w0 := State();
      var songs := acc;
      var i := 0;
      while i < |es|
        invariant 0 <= i <= |es|
        invariant CollectTracks(State(), env, es, i, playlist, albumUrl, channel, songs)
               == CollectTracks(w0, env, es, 0, playlist, albumUrl, channel, acc)
      {
        var t := ScanTrack(es[i], i, playlist, albumUrl, channel, songs);
        if t.Raise? {
          return t;
        }
        songs := t.value;
        i := i + 1;
      }
      return Ok(songs);
    }

    /** The body of the loop over a channel's album playlists for the
        playlist `e` (main.py:250-295). */
    method ScanRelease(e: Entry, channel: string, acc: seq<Song>) returns (r: Py<seq<Song>>)
      modifies this, db
      ensures Outcome(State(), r) == ReleaseStep(old(State()), env, e, channel, acc)
    {
      if e.url in archive {
        return Ok(acc);
      }
      var pl := GetInfo(e.url, env.refreshAtScan);
      if pl.Raise? {
        return Raise(pl.fault);
      }
      if pl.value.None? {
        return Ok(acc);
      }
      var playlist := pl.value.value;
      if playlist.entries.Missing? {
        return Raise(KeyError);
      }
      r := ScanTracks(playlist.entries.value, playlist, e.url, channel, acc);
    }

    /** The loop over a channel's album playlists (main.py:249-295). */
    method ScanReleases(es: seq<Entry>, channel: string, acc: seq<Song>) returns (r: Py<seq<Song>>)
      modifies this, db
      ensures Outcome(State(), r) == CollectReleases(old(State()), env, es, 0, channel, acc)
    {
      ghost var w0 := State();
      var songs := acc;
      var i := 0;
      while i < |es|
        invariant 0 <= i <= |es|
        invariant CollectReleases(State(), env, es, i, channel, songs) == CollectReleases(w0, env, es, 0, channel, acc)
      {
        var t := ScanRelease(es[i], channel, songs);
        if t.Raise? {
          return t;
        }
        songs := t.value;
        i := i + 1;
      }
      return Ok(songs);
    }

    /** The body of the loop over a topic channel's entries for the entry
        `entry` (main.py:328-375). The inner loop rebinds `entry`, so the
        `Youtube` test that follows sees the playlist's last video. */
    method ScanTopicEntry(entry: Entry, channel: string, acc: seq<Song>) returns (r: Py<seq<Song>>)
      modifies this, db
      ensures Outcome(State(), r) == TopicStep(old(State()), env, entry, channel, acc)
    {
      if entry.ieKey.Missing? {
        return Raise(KeyError);
      }
      var songs := acc;
      var e := entry;
      if entry.ieKey.value == "YoutubeTab" {
        var pl := GetInfo(entry.url, false);
        if pl.Raise? {
          return Raise(pl.fault);
        }
        if pl.value.None? {
          return Raise(TypeError);
        }
        if pl.value.value.entries.Missing? {
          return Raise(KeyError);
        }
        var pes := pl.value.value.entries.value;
        var t := ScanVideos(pes, channel, songs);
        if t.Raise? {
          return t;
        }
        songs := t.value;
        if |pes| > 0 {
          e := pes[|pes| - 1];
        }
      }
      assert TabPlaylist(old(State()), env, entry, channel, acc) == Outcome(State(), Ok((e, songs)));
      if e.ieKey.Missing? {
        return Raise(KeyError);
      }
      if e.ieKey.value == "Youtube" && e.url !in archive {
        var vd := GetInfo(e.url, false);
        if vd.Raise? {
          return Raise(vd.fault);
        }
        if vd.value.Some? {
          var s := VideoSong(vd.value.value, e.url, DefaultIndex, channel);
          if s.Raise? {
            return Raise(s.fault);
          }
          songs := songs + [s.value];
        }
      }
      return Ok(songs);
    }

    /** The loop over a topic channel's entries (main.py:327-375). */
    method ScanTopic(es: seq<Entry>, channel: string, acc: seq<Song>) returns (r: Py<seq<Song>>)
      modifies this, db
      ensures Outcome(State(), r) == CollectTopic(old(State()), env, es, 0, channel, acc)
    {
      ghost var w0 := State();
      var songs := acc;
      var i := 0;
      while i < |es|
        invariant 0 <= i <= |es|
        invariant CollectTopic(State(), env, es, i, channel, songs) == CollectTopic(w0, env, es, 0, channel, acc)
      {
        var t := ScanTopicEntry(es[i], channel, songs);
        if t.Raise? {
          return t;
        }
        songs := t.value;
        i := i + 1;
      }
      return Ok(songs);
    }

    /** `get_songs(url)` (main.py:225-379). */
    method GetSongs(url: string) returns (r: Py<seq<Song>>)
      modifies this, db
      ensures Outcome(State(), r) == Songs(old(State()), env, url)
    {
      var linkType := LinkType(url);
      var got := GetInfo(url, env.refreshAtScan);
      if got.Raise? {
        return Raise(got.fault);
      }
      if got.value.None? || got.value.value.channel.Missing? {
        return Ok([]);
      }
      var data := got.value.value;
      var channelDir := CleanStr(data.channel.value);
      if channelDir.Raise? {
        return Raise(channelDir.fault);
      }
      if data.thumbnails.Missing? {
        return Raise(KeyError);
      }
      var songs: seq<Song> := [];
      if linkType == Some(Channel) {
        if Contains(url, "/releases") {
          if data.entries.Missing? {
            return Raise(KeyError);
          }
          r := ScanReleases(data.entries.value, data.channel.value, songs);
          if r.Raise? {
            return r;
          }
          songs := r.value;
        }
        if Contains(url, "/videos") {
          if data.entries.Missing? {
            return Raise(KeyError);
          }
          r := ScanVideos(data.entries.value, data.channel.value, songs);
          if r.Raise? {
            return r;
          }
          songs := r.value;
        }
      }
      if linkType == Some(ChannelAlt) {
        if data.entries.Missing? {
          return Raise(KeyError);
        }
        r := ScanTopic(data.entries.value, data.channel.value, songs);
        if r.Raise? {
          return r;
        }
        songs := r.value;
      }
      return Ok(songs);
    }

    /** `download_video(url, path)` (main.py:177-207). */
    method DownloadVideo(url: string, noExt: string) returns (ok: bool)
      modifies this
      ensures (State(), ok) == FetchAudio(old(State()), env, url, noExt)
    {
      log := log + [Download(url, noExt)];
      if url in env.playable {
        files := files + {noExt + ".ogg"};
        return true;
      }
      AddArchive(url);
      return false;
    }

    /** `download(url, path)` (main.py:161-175). */
    method DownloadFile(url: string, path: string) returns (ok: bool)
      modifies this
      ensures (State(), ok) == HttpGet(old(State()), env, url, path)
    {
      if path in files {
        return true;
      }
      log := log + [GetFile(url, path)];
      if url in env.reachable {
        files := files + {path};
        return true;
      }
      return false;
    }

    /** `add_metadata(path, song)` (main.py:209-223). */
    method AddMetadata(path: string, song: Song)
      modifies this
      ensures State() == WriteTags(old(State()), path, song)
    {
      log := log + [Tag(path, TagsFor(song))];
    }

    /** `crop_image_square(path)` (main.py:71-87). */
    method CropImageSquare(path: string)
      modifies this
      ensures State() == old(State()).(log := old(log) + [Crop(path)])
    {
      log := log + [Crop(path)];
    }

    /** The cover part of `download_song` (main.py:418-440): what raises
        inside the `try` is swallowed. */
    method SaveCover(song: Song, l: Layout)
      modifies this, db
      ensures State() == Orchestrator.SaveCover(old(State()), env, song, l)
    {
      if l.cover in files {
        return;
      }
      var ok := DownloadFile(song.albumThumbnail.url, l.cover);
      if ok {
        CropImageSquare(l.cover);
        return;
      }
      var newData := GetInfo(song.albumUrl, true);
      if newData.Raise? || newData.value.None? {
        return;
      }
      var d := newData.value.value;
      if d.thumbnails.Missing? || |d.thumbnails.value| < 2 {
        return;
      }
      var state := DownloadFile(d.thumbnails.value[|d.thumbnails.value| - 2].url, l.cover);
      if state {
        CropImageSquare(l.cover);
      }
    }

    /** `download_song(song)` (main.py:381-442). */
    method DownloadSong(song: Song) returns (r: Py<()>)
      modifies this, db
      ensures Outcome(State(), r) == Orchestrator.DownloadSong(old(State()), env, song)
    {
      if song.url in archive {
        return Ok(());
      }
      var stripped := song.(channel := StripProducers(song.channel));
      var songChannel := CleanStr(stripped.channel);
      var songAlbum := CleanStr(song.albumTitle);
      var songTitle := CleanStr(song.title);
      if songChannel.Raise? {
        return Raise(songChannel.fault);
      }
      if songAlbum.Raise? {
        return Raise(songAlbum.fault);
      }
      if songTitle.Raise? {
        return Raise(songTitle.fault);
      }
      var songDir := PathJoin(PathJoin(env.outputDir, songChannel.value), songAlbum.value);
      var l := Layout(songDir, PathJoin(songDir, song.id + ".ogg"), PathJoin(songDir, song.id),
                      PathJoin(songDir, "cover.jpg"));
      assert SongLayout(env.outputDir, song) == Ok(l);
      if env.dryRun {
        return Ok(());
      }
      if l.audio !in files {
        var success := DownloadVideo(song.url, l.noExt);
        if success {
          AddMetadata(l.audio, stripped);
        }
      } else if env.updateExisting {
        AddMetadata(l.audio, stripped);
      }
      SaveCover(stripped, l);
      return Ok(());
    }

    /** The body of the target loop of `main` for one line of `list.txt`
        (main.py:452-463): blank and comment lines are skipped, otherwise
        every song of the target is downloaded in order. */
    method RunTarget(target: string) returns (r: Py<()>)
      modifies this, db
      ensures Outcome(State(), r) == TargetStep(old(State()), env, target)
    {
      if target == "" || target[0] == '#' {
        return Ok(());
      }
      var songs := GetSongs(target);
      if songs.Raise? {
        return Raise(songs.fault);
      }
      ghost var w0 := State();
      var j := 0;
      while j < |songs.value|
        invariant 0 <= j <= |songs.value|
        invariant DownloadAll(State(), env, songs.value, j) == DownloadAll(w0, env, songs.value, 0)
      {
        var d := DownloadSong(songs.value[j]);
        if d.Raise? {
          return d;
        }
        j := j + 1;
      }
      return Ok(());
    }

    /** `db.init()` followed by `main()` (main.py:444-467), given the lines
        of `list.txt` and `archive.txt`. A raise out of `get_songs` or
        `download_song` ends the run. */
    method Run(listLines: seq<string>, archiveLines: seq<string>) returns (r: Py<()>)
      modifies this, db
      ensures Outcome(State(), r) == Orchestrator.Run(old(State()), env, listLines, archiveLines)
    {
      db.Init();
      var targets := GetList(listLines);
      archive := archive + GetList(archiveLines);
      assert State() == Start(old(State()), archiveLines);
      ghost var w0 := State();
      var i := 0;
      while i < |targets|
        invariant 0 <= i <= |targets|
        invariant RunTargets(State(), env, targets, i) == RunTargets(w0, env, targets, 0)
      {
        var t := RunTarget(targets[i]);
        if t.Raise? {
          return t;
        }
        i := i + 1;
      }
      return Ok(());
    }
  }
}
