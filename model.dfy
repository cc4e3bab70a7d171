/** The values the archiver passes around: the kinds of catalog URL, the
    provider's metadata documents, and the flat song records (`album_song`). */
module Model {
  import opened Wrappers

  /** The four URL kinds, which are also the four cache tables:
      'channel', 'channel_alt', 'playlist' and 'video'. */
  datatype Kind = Channel | ChannelAlt | Playlist | Video

  /** One entry of a document's `thumbnails` list. */
  datatype Thumbnail = Thumbnail(id: string, url: string)

  /** One entry of a document's `entries` list, as flat extraction returns it. */
  datatype Entry = Entry(url: string, title: Field<string>, ieKey: Field<string>)

  /** The part of a provider info dictionary that the archiver reads.
      `releaseYear` is `Present(None)` when the key holds JSON null.
      `otherHasQuote` says whether some string of the dictionary outside
      these fields (a description, a tag, ...) contains a single quote, which
      matters once the whole dictionary is interpolated into SQL text. */
  datatype Doc = Doc(
    channel: Field<string>,
    title: Field<string>,
    id: Field<string>,
    album: Field<string>,
    thumbnails: Field<seq<Thumbnail>>,
    entries: Field<seq<Entry>>,
    uploadDate: Field<string>,
    releaseYear: Field<Option<int>>,
    otherHasQuote: bool)

  /** A flat record ready for download (`album_song`). `year` is kept as the
      text `str(year)` would give, since that is the only use made of it. */
  datatype Song = Song(
    title: string,
    index: nat,
    url: string,
    albumTitle: string,
    albumThumbnail: Thumbnail,
    albumUrl: string,
    channel: string,
    id: string,
    year: Option<string>)

  /** The tags `add_metadata` writes into an audio file. */
  datatype Tags = Tags(
    trackNumber: string,
    artist: string,
    album: string,
    title: string,
    date: Option<string>)

  /** The single quote that breaks SQL text built by interpolation. */
  const Quote: char := '\''

  predicate QuotedField(f: Field<string>)
  {
    f.Present? && Quote in f.value
  }

  /** `json.dumps(d)` contains a single quote: some string in the dictionary does,
      in a field the model carries or in one it does not. */
  predicate DocHasQuote(d: Doc)
  {
    || QuotedField(d.channel) || QuotedField(d.title) || QuotedField(d.id)
    || QuotedField(d.album) || QuotedField(d.uploadDate)
    || (d.thumbnails.Present? &&
        exists t :: t in d.thumbnails.value && (Quote in t.id || Quote in t.url))
    || (d.entries.Present? &&
        exists e :: e in d.entries.value && (Quote in e.url || QuotedField(e.title) || QuotedField(e.ieKey)))
    || d.otherHasQuote
  }
}
