/** The pure parts of post-processing a downloaded track: the tag values
    `add_metadata` writes (main.py:209-223) and the square crop box of
    `crop_image_square` (main.py:71-87). */
module Tagging {
  import opened Wrappers
  import opened Model
  import opened Text

  /** The artist tag: the channel name with the producer markers deleted, in
      the order main.py:216 deletes them (`official` before `Official`). */
  function Artist(channel: string): (r: string)
  {
    var a := ReplaceAll(channel, " - Topic", "");
    var b := ReplaceAll(a, " Official", "");
    var c := ReplaceAll(b, "official", "");
    ReplaceAll(c, "Official", "")
  }

  /** The artist tag only deletes: it is no longer than the channel name and
      uses only its characters. */
  lemma ArtistShrinks(channel: string)
    ensures |Artist(channel)| <= |channel|
    ensures forall ch :: ch in Artist(channel) ==> ch in channel
  {
    var a := ReplaceAll(channel, " - Topic", "");
    var b := ReplaceAll(a, " Official", "");
    var c := ReplaceAll(b, "official", "");
    DeleteShrinks(channel, " - Topic");
    DeleteShrinks(a, " Official");
    DeleteShrinks(b, "official");
    DeleteShrinks(c, "Official");
    ReplaceChars(channel, " - Topic", "");
    ReplaceChars(a, " Official", "");
    ReplaceChars(b, "official", "");
    ReplaceChars(c, "Official", "");
  }

  /** The tags written for `song`: the track number is the decimal text of
      `index + 1` (so numbering starts at 1), the artist is stripped again,
      album and title are copied, and a date is written exactly when the
      song has a year. */
  function TagsFor(song: Song): (r: Tags)
    ensures IsDecimal(r.trackNumber) && DecimalValue(r.trackNumber) == song.index + 1
    ensures r.trackNumber[0] != '0'
    ensures r.date.Some? <==> song.year.Some?
    ensures r.date.Some? ==> r.date.value == song.year.value
    ensures r.album == song.albumTitle && r.title == song.title
  {
    NatToStringRoundTrip(song.index + 1);
    Tags(NatToString(song.index + 1), Artist(song.channel), song.albumTitle, song.title, song.year)
  }

  /** Different track positions give different track numbers. */
  lemma TrackNumbersDistinct(s1: Song, s2: Song)
    requires s1.index != s2.index
    ensures TagsFor(s1).trackNumber != TagsFor(s2).trackNumber
  {
    var t1, t2 := TagsFor(s1), TagsFor(s2);
    assert DecimalValue(t1.trackNumber) != DecimalValue(t2.trackNumber);
  }

  // ---------------------------------------------------------------------
  // crop_image_square

  /** A crop box `(left, top, right, bottom)` in pixels. */
  datatype Box = Box(left: real, top: real, right: real, bottom: real)

  function Min(a: nat, b: nat): nat
  {
    if a <= b then a else b
  }

  /** The crop of a `width` x `height` image: none when it is already square,
      otherwise the largest square, centred, lying inside the image. */
  function CropBox(width: nat, height: nat): (r: Option<Box>)
    ensures r.None? <==> width == height
    ensures r.Some? ==> r.value.right - r.value.left == r.value.bottom - r.value.top == Min(width, height) as real
    ensures r.Some? ==> 0.0 <= r.value.left && r.value.right <= width as real
    ensures r.Some? ==> 0.0 <= r.value.top && r.value.bottom <= height as real
    ensures r.Some? ==> r.value.left == width as real - r.value.right
    ensures r.Some? ==> r.value.top == height as real - r.value.bottom
    ensures r.Some? ==> (r.value.left == 0.0 || r.value.top == 0.0)
  {
    if width == height then None
    else
      var n := Min(width, height);
      Some(Box((width - n) as real / 2.0, (height - n) as real / 2.0,
               (width + n) as real / 2.0, (height + n) as real / 2.0))
  }
}
