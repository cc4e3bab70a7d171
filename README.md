# ogg_archiver in Dafny

ogg_archiver mirrors YouTube music channels into a tree of tagged `.ogg`
files. It reads target URLs from `list.txt` and resolves each one through a
cache-or-fetch layer over the provider (`get_info`, backed by a sqlite cache
with one table per URL kind). It flattens a channel's album playlists, video
list or topic-channel entries into flat song records (`get_songs`). Then it
downloads each song that is not in the `archive` ledger, tags it and fetches a
square cover for its album (`download_song`).

This project models that core and proves properties of the model:

- `wrappers.dfy`, `model.dfy`: Python exceptions become `Py<T>` (`Ok` or
  `Raise(fault)`). A present/missing dictionary key becomes `Field`. The
  provider's documents and the `album_song` record become datatypes.
- `text.dfy`: the Python string operations the code relies on (`in`,
  `replace`, `split`, `lower`, `strip`, slicing and `str(n)`), with their laws.
- `classifier.dfy`: `get_link_type` and `get_id`.
- `sanitize.dfy`: `clean_str` and `strip_producers`.
- `tagging.dfy`: the tag mapping of `add_metadata` and the box of
  `crop_image_square`.
- `db.dfy`: the cache as a map from kind to a map from id to document, with
  the quote behaviour of the SQL that is built by string interpolation. The
  connection is the class `Cache`, whose methods update its tables in place.
- `resolver.dfy`: the world the archiver changes. This is the cache, the
  in-memory `archive` ledger, the set of existing paths and the log of calls
  into the outside world. The file also holds `add_archive` and the `get_info`
  state machine.
- `flattener.dfy`: `get_songs`, loop by loop, as functions over the world.
- `orchestrator.dfy`: `download_song`, the I/O calls it makes, and `main`.
- `archiver.dfy`: the program as it runs. The class `Archiver` holds the
  module-level state (`archive`, the files, the call log and the cache
  connection). Each method is one function of `main.py`, written with the
  source's loops and proved to compute exactly what the functional model
  above describes.

The outside world is a parameter (`Env`):
- the documents the provider returns for each URL;
- the URLs whose audio download succeeds;
- the image URLs that can be fetched;
- the settings `refresh_cache_at_scan`, `update_metadata_existing`, `dry_run`
  and `output_dir`.

Every provider call, download, tag write and crop is recorded in the log,
so properties can say which calls a step makes.

The code is modelled as written wherever it can be run as written. Three
consequences:
- `get_info` tests `not url_type` twice, so the id is never validated.
- A single quote in an id makes the cache miss forever.
- The topic-channel loop rebinds `entry`, so the `ie_key == 'Youtube'` test
  sees the playlist's last video. That video is then emitted a second time
  (`Flattener.TopicRepeatsLastTrack`).

`get_id` cannot run as written. It is modelled both as written and as
evidently intended (see Findings), and the rest of the model uses the
intended version.

## Model

| member | source | states |
|---|---|---|
| Classifier.LinkType | main.py:145-156 | The kind is the first kind, in the order channel, channel_alt, playlist, video, whose marker occurs in the URL. It is `None` exactly when no marker occurs. |
| Classifier.GetIdAsWritten | main.py:89-95 | As written, `get_id` reads `url_type`, which is unbound in its scope, so every call raises `NameError`. |
| Classifier.GetId | main.py:89-95 | Only a channel_alt URL can make `get_id` raise, and then it raises `IndexError`. |
| Classifier.GetIdShape | main.py:89-95 | Describes the id without `split`. For a channel URL with `@`, it is the handle: after the first `@`, up to the next `/` or `@`, with neither character in it. For channel_alt, it is the whole segment after exactly four `/`, and it exists iff the URL has at least four `/`. Otherwise it is the trailing value: the longest suffix with no `?` and no `=`. |
| Classifier.TrailingValueUnique | main.py:95 | A URL has at most one trailing value, so the description determines the id. |
| Classifier.HandleUnique | main.py:90-91 | A URL has at most one handle. |
| Classifier.HandleUrlExample | main.py:89-91 | `https://www.youtube.com/@h/videos` is a channel URL whose id is `h`. |
| Classifier.NoMarkerExample | main.py:145-156 | A URL without any marker gets no kind. |
| Classifier.WatchUrlExample | main.py:94-95 | The id of a watch URL is its video id. |
| Classifier.GetIdAsWrittenFails | main.py:89-99 | The as-written `get_id` fails on every watch URL. On the same URL, the corrected `get_id` returns the video id. |
| Sanitize.Cleaned | main.py:46-63 | `clean_str` can raise only `IndexError`. |
| Sanitize.CleanedIsPathSafe | main.py:46-63 | `clean_str` raises `IndexError` exactly when the lowered and replaced text is empty. Otherwise its result has no capital, no space, no big solidus and none of the ten reserved characters (`<`, `>`, `:`, `"`, `/`, backslash, vertical bar, `?`, `*`, `.`). |
| Sanitize.NormalisedChars | main.py:47-53 | After the `lower` and `replace` chain there is no capital, no `/`, no big solidus and no space. |
| Sanitize.TrailingSpaceIsDead | main.py:55-56 | The trailing-space test of `clean_str` never fires, because every space has already become `_`. |
| Sanitize.CleanedIdempotent | main.py:46-63 | Cleaning a non-empty cleaned name again gives the same name. |
| Sanitize.NormalisedKeepsSafe | main.py:47-53 | A path-safe string passes through the normalisation unchanged. |
| Sanitize.WithoutChars | main.py:58-61 | Deleting the reserved characters keeps exactly the characters outside the reserved list. |
| Sanitize.DeleteCharIsWithout | main.py:61 | `replace(c, '')` deletes every occurrence of `c`. |
| Sanitize.WithoutTwice | main.py:59-61 | Deleting the reserved characters one by one, in list order, equals deleting them all at once. |
| Sanitize.WithoutAbsent | main.py:60 | Deleting characters that do not occur changes nothing, which is why the `if char in input` guard does not matter. |
| Sanitize.CleanStr | main.py:46-63 | The statement-by-statement `clean_str`, with its loop over the reserved characters, computes `Cleaned`. |
| Sanitize.StripProducersShrinks | main.py:40-44 | `strip_producers` only deletes. The result is no longer than the name and uses only the name's characters. |
| Sanitize.StripProducersKeepsPlain | main.py:40-44 | A name without any producer marker is returned unchanged. |
| Text.SplitJoin | main.py:91-95 | Joining the parts of `split` with the separator gives back the string. |
| Text.SplitPartsFree | main.py:91-95 | No part of `split` contains the separator. |
| Text.SplitCount | main.py:91-93 | `split` gives one more part than there are separators. |
| Text.SplitLast | main.py:95 | `split(sep)[-1]` is the suffix after the last separator. |
| Text.StripTrims | main.py:159 | `strip` gives a middle slice of the line that neither starts nor ends with whitespace. |
| Text.NatToStringRoundTrip | main.py:215 | `str(n)` writes `n` in decimal without leading zeros, and reading the digits back gives `n`. |
| Tagging.ArtistShrinks | main.py:216 | The artist tag only deletes characters from the channel name. |
| Tagging.TagsFor | main.py:215-221 | The track number is the decimal text of `index + 1`, with no leading zero. Album and title are copied. A date is written exactly when the song has a year, and it is that year. |
| Tagging.TrackNumbersDistinct | main.py:215 | Songs at different positions get different track numbers. |
| Tagging.CropBox | main.py:76-84 | No crop iff the image is square. Otherwise the box is a square of side `min(width, height)` inside the image, centred on both axes and touching two opposite edges. The box stands alone: the image size comes from PIL, so the `Crop` effect that `SaveCover` records names only the path. |
| Db.CreateAllAdds | db.py:4-10 | Creating the tables of a kind list adds an empty table for each missing kind and keeps every existing table. |
| Db.InitCreatesEveryTable | db.py:4-10 | After `init` all four tables exist. Existing tables keep their rows and new tables are empty. |
| Db.InitIdempotent | db.py:4-10 | Running `init` twice is the same as running it once. |
| Db.Insert | db.py:12-15 | `add_entry` succeeds iff the table exists and the id is absent, and the row then holds the document. A duplicate id raises `IntegrityError` and a missing table raises `OperationalError`. |
| Db.Update | db.py:17-20 | `update_entry` raises iff the table is missing or the id or the JSON text contains a quote. Otherwise it overwrites an existing row and leaves the tables unchanged for an absent id. |
| Db.Lookup | db.py:22-29 | `get_entry` returns only the stored row, and a quoted id always misses. |
| Db.InsertThenLookup | db.py:12-29 | After a successful `add_entry` with a quote-free id, `get_entry` returns the document. |
| Db.QuotedIdNeverFound | db.py:12-29 | A quoted id is stored by `add_entry` but never found by `get_entry`. |
| Db.WriteTouchesOneRow | db.py:12-20 | An insert or an update changes only its own row. No table is created or removed. |
| Db.WritesKeepRows | db.py:1-29 | Writes never remove a table or a row. |
| Db.WriteLeavesOtherLookups | db.py:12-29 | After a write, every other `(kind, id)` reads as before. |
| Db.Cache.constructor | db.py:2 | The connection starts with the tables stored on disk. |
| Db.Cache.Init | db.py:4-10 | The loop over the kinds leaves the tables as `init` specifies (`Initialised`). |
| Db.Cache.AddEntry | db.py:12-15 | Returns what `Insert` gives, and changes the tables only on success. |
| Db.Cache.UpdateEntry | db.py:17-20 | Returns what `Update` gives, and changes the tables only on success. |
| Db.Cache.GetEntry | db.py:22-29 | Returns `Lookup` and never raises. |
| Resolver.AddArchive | main.py:65-69 | `add_archive` appends the URL to the ledger and changes nothing else. |
| Resolver.AddArchiveRecords | main.py:65-69 | After `add_archive(u)`, `u` is archived and every earlier entry still is. The ledger grows by one even for a duplicate. |
| Resolver.Resolve | main.py:97-143 | `get_info` only extends the world: the ledger and log are appended to and no row disappears. It makes at most one provider call, for its own URL. |
| Resolver.ResolveSound | main.py:97-143 | A raise is `IndexError` and changes nothing. Only `url` is archived, and then the result is `False`. `False` without archiving means a URL of no kind. A returned document is either the cached row, with no call and not forced, or the provider's document for `url`. |
| Resolver.CacheHitIsPure | main.py:109-112 | On a cache hit without `force_update`, the cached document is returned with no provider call and no cache or ledger write. |
| Resolver.FetchFailureArchives | main.py:119-143 | A fetch that fails archives the URL and returns `False`. |
| Resolver.FetchThenHit | main.py:109-139 | A document fetched under a quote-free id is served from the cache on the next call, with no change. |
| Resolver.QuotedIdRefetchArchives | main.py:109-143 | For an id with a quote, the second call fetches again, the INSERT hits the existing key, and the URL is archived. |
| Resolver.ForcedUpdateOfUncachedWritesNothing | main.py:135-136 | A forced update of an id that was never cached returns the document but writes nothing. |
| Resolver.ForcedUpdateRefreshes | main.py:135-136 | A forced update of a cached id replaces the row, and the next unforced call returns the new document. |
| Resolver.ResolveAnswers | main.py:97-143 | Say `url` is answered by `d`: its id is quote-free, its table exists, and either its row holds `d` or it has no row and the provider gives `d`. Then `get_info(url)` returns `d` and archives nothing. Afterwards `url` is still answered by `d`. Every other URL answered before, under a different table and id, still is. |
| Flattener.VideoSong | main.py:311-321 | A directly found video yields a song iff it has a title, an id, an upload date and at least two thumbnails. A failure is `IndexError` exactly when the title is there but there are fewer than two thumbnails; otherwise it is `KeyError`. The URL, album URL and index come from the entry, and the channel is the root's. The year is at most four characters and a prefix of `upload_date`. The album is `_unknown` when absent. |
| Flattener.TrackSong | main.py:282-295 | An album track yields a song iff all of these hold: it has a title, an id and a `release_year` key; it has an album or the playlist has a title; and the playlist has at least two thumbnails. Otherwise it raises `KeyError` or `IndexError`. The album falls back to the playlist title. The album URL is the playlist's, and the year is present iff `release_year` is not null. |
| Flattener.VideoStep | main.py:301-321 | One pass of the video loop only extends the world and creates no file. |
| Flattener.CollectVideos | main.py:300-321 | The video loop only extends the world and creates no file. |
| Flattener.TrackStep | main.py:272-295 | One pass of the album loop only extends the world and creates no file. |
| Flattener.CollectTracks | main.py:271-295 | The album loop only extends the world and creates no file. |
| Flattener.ReleaseStep | main.py:250-295 | One pass of the release loop only extends the world and creates no file. |
| Flattener.CollectReleases | main.py:249-295 | The release loop only extends the world and creates no file. |
| Flattener.TabPlaylist | main.py:328-351 | The `YoutubeTab` branch only extends the world, and for any other `ie_key` it changes nothing and keeps the entry. |
| Flattener.DirectVideo | main.py:353-375 | The `Youtube` branch only extends the world and creates no file. |
| Flattener.TopicStep | main.py:328-375 | One pass of the topic loop only extends the world and creates no file. |
| Flattener.CollectTopic | main.py:327-375 | The topic loop only extends the world and creates no file. |
| Flattener.VideoStepSound | main.py:300-321 | One pass of the video loop asks the provider only about a non-archived entry. It adds at most that entry's song, at the entry's position. |
| Flattener.CollectVideosSound | main.py:300-321 | The video loop keeps earlier songs and adds songs only for non-archived entries, in entry order, each at its `enumerate` position. It never asks the provider about an archived URL. |
| Flattener.ExpectedVideos | main.py:300-321 | The songs the video loop should yield from entry `i` on: one per non-archived entry that makes a song, in entry order, at its position. There are never more of them than entries. |
| Flattener.AnsweredStep | main.py:300-321 | Answering one non-archived entry archives nothing, leaves that entry answered and, since the entries' keys differ, keeps every later entry answered. |
| Flattener.VideosTurn | main.py:301-321 | One pass of the video loop over answered entries: an archived entry adds nothing, and a fresh one adds exactly its song at its position. Nothing is archived and every later entry stays answered. |
| Flattener.CollectVideosComplete | main.py:300-321 | If every non-archived entry is answered under its own key and makes a song, the video loop returns exactly the expected songs: one per non-archived entry, in entry order, at its position. Nothing is archived. |
| Flattener.LoopLeavesLastAnswered | main.py:300-321 | Under the same conditions, a non-archived last entry is still answered by its document once the video loop is over. |
| Flattener.ExpectedVideosLast | main.py:300-321 | When the last entry is not archived and makes a song, the expected songs end with that song, at the last position. |
| Flattener.ArchivedMiddleSkipped | main.py:300-321 | Take three entries where only the middle one is archived and the other two are answered. The video loop yields exactly the songs of the first and the third, in that order, at positions 0 and 2. |
| Flattener.TrackStepSound | main.py:271-295 | One pass of the album loop adds at most the song of its own non-archived video, for the album playlist. |
| Flattener.CollectTracksSound | main.py:271-295 | The album loop adds songs only for non-archived videos, in playlist order, at their playlist positions, all for the album. |
| Flattener.ExpectedTracks | main.py:271-295 | The songs the album loop should yield from video `i` on: one per non-archived video that makes a track, in playlist order, at its position. There are never more of them than videos. |
| Flattener.TracksTurn | main.py:272-295 | One pass of the album loop over answered videos: an archived video with a title adds nothing, and a fresh one adds exactly its track. Nothing is archived and every later video stays answered. |
| Flattener.CollectTracksComplete | main.py:271-295 | If every non-archived video is answered under its own key and makes a track, and every archived one has the title its log line reads, the album loop returns exactly the expected tracks. They come in playlist order, at playlist positions, and nothing is archived. |
| Flattener.ReleaseStepSound | main.py:249-295 | One pass of the release loop skips an archived playlist before any provider call. Otherwise it adds only songs of that playlist. |
| Flattener.CollectReleasesSound | main.py:249-295 | Every song of the release loop belongs to a non-archived album playlist of the channel, and no provider call is for an archived URL. |
| Flattener.TabPlaylistSound | main.py:328-351 | The `YoutubeTab` branch adds only songs of non-archived videos of the channel. |
| Flattener.DirectVideoSound | main.py:353-375 | The `Youtube` branch adds at most one song, for a non-archived video. |
| Flattener.TopicStepSound | main.py:327-375 | One pass of the topic loop adds only songs of non-archived videos. |
| Flattener.CollectTopicSound | main.py:327-375 | The topic loop adds only songs of non-archived videos that carry the channel's name. |
| Flattener.ArchivedTabStillFetched | main.py:328-329 | A `YoutubeTab` child is fetched without any archive test. |
| Flattener.TabFetchesFirst | main.py:328-329 | The `YoutubeTab` branch starts with its provider call. |
| Flattener.OneVideo | main.py:300-321 | The video loop over a single fresh video yields exactly that video's song. |
| Flattener.TabAnswered | main.py:328-351 | On an answered playlist, the `YoutubeTab` branch yields the videos exactly as the video loop does. It leaves `entry` bound to the last video, and that video is still answered. |
| Flattener.DirectAnswered | main.py:353-375 | A direct `Youtube` video that is answered and not archived yields exactly its song, at the default index. |
| Flattener.TopicRepeatsLastTrack | main.py:327-375 | Because the inner loop rebinds `entry`, a topic playlist of any length whose last video has `ie_key` `Youtube` yields that video twice. The playlist's answered videos come out as the video loop gives them, the last one at its playlist position. Then the last video comes once more, served from the cache, with the default index 1. |
| Flattener.ChannelSongs | main.py:245-321 | The channel branch only extends the world and creates no file. |
| Flattener.ChannelSongsSound | main.py:245-321 | The `/releases` and `/videos` branches together add only songs of non-archived URLs, with the channel's name. |
| Flattener.Songs | main.py:225-379 | `get_songs` only extends the world and creates no file. |
| Flattener.RootRejected | main.py:229-233 | A root that is `False` or lacks `channel` gives no songs. |
| Flattener.OnlyChannelsYieldSongs | main.py:245-326 | Only channel and channel_alt URLs yield songs. |
| Flattener.SongsSound | main.py:225-379 | Every song returned is for a URL that was not archived at the start, and all songs share one channel name. |
| Flattener.VideoIndicesArePositions | main.py:299-321 | For a `/videos` URL each song's index is its video's position in the channel's entries, strictly increasing. It is not a count of the songs kept. |
| Orchestrator.PathJoinShape | main.py:395-398 | `os.path.join(a, b)` ends with `b`. Unless `b` is absolute, it starts with `a`. |
| Orchestrator.NoExtThenOgg | main.py:396-397 | The path the downloader writes (`noext` plus `.ogg`) is the `.ogg` path that `download_song` tests. |
| Orchestrator.CleanedNotAbsolute | main.py:395 | A cleaned name is never an absolute path. |
| Orchestrator.AudioIsNotCover | main.py:396-398 | The audio path is never the cover path. |
| Orchestrator.SongLayout | main.py:389-398 | The layout raises iff `clean_str` raises on the stripped channel, on the album or on the title. The only fault is `IndexError`. |
| Orchestrator.LayoutUnderOutputDir | main.py:389-398 | The song directory and cover lie under `output_dir`. The audio is in the song directory unless the id is absolute, and the audio is never the cover. |
| Orchestrator.FetchAudio | main.py:177-207 | `download_video` logs one download. On success the `.ogg` file exists; on failure only the URL is archived. |
| Orchestrator.HttpGet | main.py:161-175 | `download` returns true iff the path exists or the URL is reachable. An existing path makes no request. Otherwise there is one request, and the file exists iff it succeeded. |
| Orchestrator.SaveAudio | main.py:405-416 | The audio part only extends the world and never removes a file. |
| Orchestrator.SaveCover | main.py:418-440 | The cover part only extends the world and never removes a file. |
| Orchestrator.DownloadSong | main.py:381-442 | `download_song` only extends the world. A raise is an `IndexError` from `clean_str` and changes nothing. |
| Orchestrator.Proceeds | main.py:384-416 | A song that is not archived, has a valid layout and is not a dry run goes through the audio part and then the cover part, with the channel stripped. |
| Orchestrator.SaveAudioLog | main.py:406-416 | The audio part adds exactly: a download and a tag write on success; a download on failure; a tag write for an existing file when `update_metadata_existing` is set; nothing otherwise. |
| Orchestrator.SaveCoverEffects | main.py:418-440 | The cover part only adds image downloads, provider calls and crops, and an existing cover makes it change nothing. |
| Orchestrator.ArchivedSongUntouched | main.py:384-385 | An archived song is left alone. |
| Orchestrator.DryRunChangesNothing | main.py:402-403 | A dry run changes nothing. |
| Orchestrator.ExistingAudioNotDownloaded | main.py:406-416 | With an existing `.ogg` file there is no download. Tags are rewritten iff `update_metadata_existing` is set. |
| Orchestrator.FailedDownloadArchives | main.py:406-413 | A failed audio download is attempted for the song and archives its URL. |
| Orchestrator.DownloadedSongNotDownloadedAgain | main.py:406-413 | After a successful download the `.ogg` file exists, and a second `download_song` downloads nothing. |
| Orchestrator.ExistingCoverKept | main.py:418 | An existing cover is neither downloaded, re-fetched nor cropped. |
| Orchestrator.CoverDownloadedAndCropped | main.py:418-426 | A cover whose first download succeeds exists and is cropped last, and the album is not fetched again. |
| Orchestrator.DownloadSongEffects | main.py:381-416 | Every audio download is for the song's own non-archived URL. Every tag write is for its `.ogg` path, with the tags of the song after `strip_producers`. |
| Orchestrator.GetList | main.py:158-159 | `get_list` keeps one stripped line per line. |
| Orchestrator.DownloadAll | main.py:461-463 | The song loop only extends the world. |
| Orchestrator.TargetStep | main.py:451-463 | A blank or comment line is skipped with no effect. |
| Orchestrator.RunTargets | main.py:451-463 | The target loop only extends the world. |
| Orchestrator.Start | main.py:447-448 | Start-up creates the four tables and appends the stripped `archive.txt` lines to the ledger. Files and log are unchanged. |
| Orchestrator.Run | main.py:444-467 | The whole run only extends the world and never removes a file. |
| Orchestrator.SkippedLineIsNoop | main.py:452-456 | A skipped line leaves the rest of the run as if it were absent. |
| Orchestrator.BlankLineSkipped | main.py:452-453 | A line of whitespace only is skipped. |
| Orchestrator.CommentLineSkipped | main.py:455-456 | A line whose first non-space character is `#` is skipped, even when indented. |
| ArchiverApp.Archiver.constructor | main.py:26 | A fresh process starts with an empty ledger and an empty call log. |
| ArchiverApp.Archiver.AddArchive | main.py:65-69 | The new state is `Resolver.AddArchive` of the old one. |
| ArchiverApp.Archiver.GetInfo | main.py:97-143 | State and result are exactly `Resolve` of the old state. |
| ArchiverApp.Archiver.ScanVideo | main.py:301-321 | One pass of the video loop computes `VideoStep`. |
| ArchiverApp.Archiver.ScanVideos | main.py:300-321 | The loop computes `CollectVideos`. |
| ArchiverApp.Archiver.ScanTrack | main.py:272-295 | One pass of the album loop computes `TrackStep`. |
| ArchiverApp.Archiver.ScanTracks | main.py:271-295 | The loop computes `CollectTracks`. |
| ArchiverApp.Archiver.ScanRelease | main.py:250-295 | One pass of the release loop computes `ReleaseStep`. |
| ArchiverApp.Archiver.ScanReleases | main.py:249-295 | The loop computes `CollectReleases`. |
| ArchiverApp.Archiver.ScanTopicEntry | main.py:328-375 | One pass of the topic loop computes `TopicStep`. |
| ArchiverApp.Archiver.ScanTopic | main.py:327-375 | The loop computes `CollectTopic`. |
| ArchiverApp.Archiver.GetSongs | main.py:225-379 | State and result are exactly `Songs` of the old state. |
| ArchiverApp.Archiver.DownloadVideo | main.py:177-207 | The new state and result are `FetchAudio`. |
| ArchiverApp.Archiver.DownloadFile | main.py:161-175 | The new state and result are `HttpGet`. |
| ArchiverApp.Archiver.AddMetadata | main.py:209-223 | The new state is `WriteTags`. |
| ArchiverApp.Archiver.CropImageSquare | main.py:71-87 | Logs one crop of the path. |
| ArchiverApp.Archiver.SaveCover | main.py:418-440 | The new state is `Orchestrator.SaveCover`. |
| ArchiverApp.Archiver.DownloadSong | main.py:381-442 | State and result are exactly `Orchestrator.DownloadSong`. |
| ArchiverApp.Archiver.RunTarget | main.py:451-463 | The loop over one target's songs computes `TargetStep`. |
| ArchiverApp.Archiver.Run | main.py:444-467 | `db.init()` and `main()` compute `Orchestrator.Run`. |

## Left out

- The provider (`yt_dlp` extraction and download), `requests`, PIL and mutagen are not called. Their outcomes are inputs (`Env`), and each call is recorded as an effect in the log.
- The provider is time-invariant in this model: one URL always gives the same document.
- A download that fails halfway through and leaves a partial file is not modelled. The file exists exactly when the download succeeded.
- mutagen's `File()` returning `None` for an unreadable file is not modelled: a tag write is always recorded.
- The pixel rounding of PIL's `crop` and the image itself are not modelled. Only the box arithmetic is.
- Appending to `archive.txt` and reading `list.txt`/`archive.txt` are file I/O. Their line contents are parameters of `Run`, and appended ledger lines are not written back.
- `os.makedirs` and directories are not modelled. The filesystem is the set of existing file paths.
- The avatar/banner download loop of `get_songs` (main.py:238-242) is pure I/O and is left out. Its `data['thumbnails']` lookup is kept: a root without `thumbnails` raises `KeyError`.
- `cprint` logging, the rate-limit and sleep settings, and the unused thread pool (main.py:15) are left out.
- The sqlite engine and the SQL text itself are not modelled. A quote in an interpolated value is treated as a malformed statement. A balanced pair of quotes that would form valid SQL is not modelled.
- `json.dumps` followed by `json.loads` is taken to be the identity. The cache stores documents.
- Only the document fields the archiver reads are modelled. Whether some other string in the document (a description, a tag) holds a quote is the flag `otherHasQuote`, which `update_entry`'s quote test reads together with the modelled fields.
- Documents are always truthy (non-empty dictionaries). A document field that is present but JSON null is modelled only for `release_year`.
- `entry['url']` and `thumbnail['url']` lookups are taken to succeed: the provider's flat entries and thumbnail records always carry a URL.
- `lower`, `strip` and `isspace` are modelled on ASCII characters only.
- `song.channel = strip_producers(song.channel)` mutates the caller's record. The model passes the stripped record on instead, which is the same for the single call `main` makes per song.
- Orchestrator.SaveAudio: its own ensures states only that the world is extended; what it does is stated by the lemmas about it and by the `ArchiverApp.Archiver` method proved equal to it.
- Orchestrator.SaveCover: its own ensures states only that the world is extended; what it does is stated by the lemmas about it and by the `ArchiverApp.Archiver` method proved equal to it.
- Orchestrator.DownloadSong: its own ensures states only that the world is extended; what it does is stated by the lemmas about it and by the `ArchiverApp.Archiver` method proved equal to it.
- Orchestrator.DownloadAll: its own ensures states only that the world is extended; what it does is stated by the lemmas about it and by the `ArchiverApp.Archiver` method proved equal to it.
- Orchestrator.RunTargets: its own ensures states only that the world is extended; what it does is stated by the lemmas about it and by the `ArchiverApp.Archiver` method proved equal to it.
- Orchestrator.Run: its own ensures states only that the world is extended; what it does is stated by the lemmas about it and by the `ArchiverApp.Archiver` method proved equal to it.
- Flattener.Songs: its own ensures states only that the world is extended; what it does is stated by the lemmas about it and by the `ArchiverApp.Archiver` method proved equal to it.
- Flattener.ChannelSongs: its own ensures states only that the world is extended; what it does is stated by the lemmas about it and by the `ArchiverApp.Archiver` method proved equal to it.

## Findings

| source | as written | input that shows it | evidently intended | confidence | as-written member | corrected member |
|---|---|---|---|---|---|---|
| main.py:89-95 | `get_id` tests `url_type`, a local variable of `get_info` that is not visible in `get_id`, so every call raises `NameError` and `get_info` never returns | `https://www.youtube.com/watch?v=abc` | `get_id` takes the URL kind computed by `get_info` and returns `abc` | not executed | Classifier.GetIdAsWritten, Classifier.GetIdAsWrittenFails | Classifier.GetId, Classifier.GetIdShape |
