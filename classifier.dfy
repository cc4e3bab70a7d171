/** URL classification (`get_link_type`) and id extraction (`get_id`). */
module Classifier {
  import opened Wrappers
  import opened Model
  import opened Text

  // ---------------------------------------------------------------------
  // get_link_type (main.py:145-156)

  /** The substring that marks each kind of URL. */
  function Marker(k: Kind): string
  {
    match k
    case Channel => "youtube.com/@"
    case ChannelAlt => "youtube.com/channel"
    case Playlist => "youtube.com/playlist?list"
    case Video => "youtube.com/watch?v="
  }

  /** The order in which the markers are tried. */
  function Rank(k: Kind): nat
  {
    match k
    case Channel => 0
    case ChannelAlt => 1
    case Playlist => 2
    case Video => 3
  }

  /** `get_link_type`: the kind whose marker occurs in the URL, the first one
      in the order channel, channel_alt, playlist, video; `None` when no
      marker occurs. */
  function LinkType(url: string): (r: Option<Kind>)
    ensures r.Some? ==> Contains(url, Marker(r.value))
    ensures r.Some? ==> forall k :: Rank(k) < Rank(r.value) ==> !Contains(url, Marker(k))
    ensures r.None? <==> forall k :: !Contains(url, Marker(k))
  {
    if Contains(url, "youtube.com/@") then Some(Channel)
    else if Contains(url, "youtube.com/channel") then Some(ChannelAlt)
    else if Contains(url, "youtube.com/playlist?list") then Some(Playlist)
    else if Contains(url, "youtube.com/watch?v=") then Some(Video)
    else None
  }

  // ---------------------------------------------------------------------
  // Independent descriptions of the three id shapes

  /** `h` is the handle of `url`: it starts right after the first `@` and runs
      up to the next `/` or `@`, or to the end. */
  predicate HandleAt(url: string, p: int, h: string)
  {
    && 1 <= p <= |url| - |h|
    && url[p - 1] == '@' && '@' !in url[..p - 1]
    && url[p..p + |h|] == h && '@' !in h && '/' !in h
    && (p + |h| == |url| || url[p + |h|] == '@' || url[p + |h|] == '/')
  }

  /** `seg` is a whole `sep`-separated segment of `s` starting at index `p`. */
  predicate SegmentAt(s: string, sep: char, p: int, seg: string)
  {
    && 0 <= p <= |s| - |seg|
    && s[p..p + |seg|] == seg && sep !in seg
    && (p == 0 || s[p - 1] == sep)
    && (p + |seg| == |s| || s[p + |seg|] == sep)
  }

  /** `v` is the trailing value of `url`: the longest suffix with neither `?` nor `=`. */
  predicate TrailingValue(url: string, v: string)
  {
    && |v| <= |url| && url[|url| - |v|..] == v
    && '?' !in v && '=' !in v
    && (|v| == |url| || url[|url| - |v| - 1] == '?' || url[|url| - |v| - 1] == '=')
  }

  // ---------------------------------------------------------------------
  // get_id (main.py:89-95)

  /** `get_id` as written: its first test reads `url_type`, which is a local
      variable of `get_info` and is not bound in `get_id`, so every call raises. */
  function GetIdAsWritten(url: string): (r: Py<string>)
    ensures r == Raise(NameError)
  {
    Raise(NameError)
  }

  /** `get_id` with the URL kind passed in, as `get_info` evidently intends:
      the handle for a channel URL with `@`, the fifth `/`-separated segment
      for a channel_alt URL (an `IndexError` when there are fewer), and
      otherwise the value after the last `=` of the last `?`-separated part. */
  function GetId(kind: Option<Kind>, url: string): (r: Py<string>)
    ensures r.Raise? ==> r.fault == IndexError && kind == Some(ChannelAlt)
  {
    if kind == Some(Channel) && '@' in url then
      var parts := Split(url, '@');
      SplitCount(url, '@');
      CountPositive(url, '@');
      Ok(Split(parts[1], '/')[0])
    else if kind == Some(ChannelAlt) then
      var parts := Split(url, '/');
      if |parts| > 4 then Ok(parts[4]) else Raise(IndexError)
    else Ok(LastPart(LastPart(url, '?'), '='))
  }

  /** `s.split(c)[-1]`. */
  function LastPart(s: string, c: char): string
  {
    var parts := Split(s, c);
    parts[|parts| - 1]
  }

  /** What `get_id` extracts, described without `split`: the handle of a
      channel URL with `@`; for channel_alt the segment after exactly four
      `/`, which exists exactly when the URL has at least four `/`; and
      otherwise the trailing value after the last `?` or `=`. */
  lemma GetIdShape(kind: Option<Kind>, url: string)
    ensures kind == Some(Channel) && '@' in url ==>
      GetId(kind, url).Ok? && exists p :: HandleAt(url, p, GetId(kind, url).value)
    ensures kind == Some(ChannelAlt) ==> (GetId(kind, url).Ok? <==> Count(url, '/') >= 4)
    ensures kind == Some(ChannelAlt) && GetId(kind, url).Ok? ==>
      exists p :: SegmentAt(url, '/', p, GetId(kind, url).value) && Count(url[..p], '/') == 4
    ensures kind != Some(ChannelAlt) && !(kind == Some(Channel) && '@' in url) ==>
      GetId(kind, url).Ok? && TrailingValue(url, GetId(kind, url).value)
  {
    if kind == Some(Channel) && '@' in url {
      SplitCount(url, '@');
      CountPositive(url, '@');
      HandleFromSplit(url, GetId(kind, url).value);
    } else if kind == Some(ChannelAlt) {
      SplitCount(url, '/');
      if |Split(url, '/')| > 4 {
        SplitSegment(url, '/', 4);
      }
    } else {
      TrailingFromSplit(url);
    }
  }

  // ---------------------------------------------------------------------
  // Facts behind GetId's contract

  lemma {:induction false} CountPositive(s: string, c: char)
    ensures c in s <==> Count(s, c) > 0
  {
    if |s| > 0 {
      CountPositive(s[1..], c);
      assert s == [s[0]] + s[1..];
    }
  }

  /** The `n`-th part of `s.split(sep)` is a whole segment that starts after
      exactly `n` separators. */
  lemma {:induction false} SplitSegment(s: string, sep: char, n: nat)
    requires n < |Split(s, sep)|
    ensures exists p :: SegmentAt(s, sep, p, Split(s, sep)[n]) && Count(s[..p], sep) == n
    decreases |s|
  {
    if |s| == 0 {
      assert SegmentAt(s, sep, 0, "") && Count(s[..0], sep) == 0;
    } else {
      var rest := Split(s[1..], sep);
      if s[0] == sep && n == 0 {
        assert SegmentAt(s, sep, 0, "") && Count(s[..0], sep) == 0;
      } else if s[0] == sep {
        SplitSegment(s[1..], sep, n - 1);
        var p' :| SegmentAt(s[1..], sep, p', rest[n - 1]) && Count(s[1..][..p'], sep) == n - 1;
        SegmentStep(s, sep, p', rest[n - 1]);
      } else if n == 0 {
        SplitSegment(s[1..], sep, 0);
        var p' :| SegmentAt(s[1..], sep, p', rest[0]) && Count(s[1..][..p'], sep) == 0;
        FirstSegmentAtZero(s[1..], sep, p', rest[0]);
        SegmentExtend(s, sep, rest[0]);
        assert Count(s[..0], sep) == 0;
      } else {
        SplitSegment(s[1..], sep, n);
        var p' :| SegmentAt(s[1..], sep, p', rest[n]) && Count(s[1..][..p'], sep) == n;
        SegmentStep(s, sep, p', rest[n]);
      }
    }
  }

  /** A segment of `s[1..]` is a segment of `s`, one position further on. */
  lemma SegmentStep(s: string, sep: char, p: int, seg: string)
    requires |s| > 0 && SegmentAt(s[1..], sep, p, seg) && (p == 0 ==> s[0] == sep)
    ensures SegmentAt(s, sep, p + 1, seg)
    ensures Count(s[..p + 1], sep) == (if s[0] == sep then 1 else 0) + Count(s[1..][..p], sep)
  {
    assert s[p + 1..p + 1 + |seg|] == s[1..][p..p + |seg|];
    assert s[..p + 1][1..] == s[1..][..p];
  }

  /** A segment with no separator before it is the first one. */
  lemma FirstSegmentAtZero(s: string, sep: char, p: int, seg: string)
    requires SegmentAt(s, sep, p, seg) && Count(s[..p], sep) == 0
    ensures p == 0
  {
    if p > 0 {
      assert s[..p][p - 1] == sep;
      CountPositive(s[..p], sep);
    }
  }

  /** The first segment of `s[1..]` grows by `s[0]` when that is no separator. */
  lemma SegmentExtend(s: string, sep: char, seg: string)
    requires |s| > 0 && s[0] != sep && SegmentAt(s[1..], sep, 0, seg)
    ensures SegmentAt(s, sep, 0, [s[0]] + seg)
  {
    assert s[0..1 + |seg|] == [s[0]] + s[1..][0..|seg|];
  }

  /** The first part of `s.split(c)` runs up to the first `c`. */
  lemma FirstPart(s: string, c: char)
    ensures Split(s, c)[0] == s[..IndexOf(s, c)]
  {
    SplitAtFirst(s, c);
    if c !in s {
      assert s[..IndexOf(s, c)] == s;
    }
  }

  /** The handle computed by `url.split('@')[1].split('/')[0]`. */
  lemma HandleFromSplit(url: string, h: string)
    requires '@' in url
    requires |Split(url, '@')| >= 2 && h == Split(Split(url, '@')[1], '/')[0]
    ensures exists p :: HandleAt(url, p, h)
  {
    var i := IndexOf(url, '@');
    SplitAtFirst(url, '@');
    var t := url[i + 1..];
    assert Split(url, '@')[1] == Split(t, '@')[0];
    FirstPart(t, '@');
    var s1 := t[..IndexOf(t, '@')];
    FirstPart(s1, '/');
    HandleIntro(url, i, IndexOf(t, '@'), IndexOf(s1, '/'), h);
  }

  lemma HandleIntro(url: string, i: nat, j: nat, k: nat, h: string)
    requires i < |url| && url[i] == '@' && '@' !in url[..i]
    requires j <= |url| - i - 1 && '@' !in url[i + 1..][..j]
    requires k <= j && '/' !in url[i + 1..][..j][..k]
    requires j < |url| - i - 1 ==> url[i + 1..][j] == '@'
    requires k < j ==> url[i + 1..][..j][k] == '/'
    requires h == url[i + 1..][..j][..k]
    ensures HandleAt(url, i + 1, h)
  {
    var p := i + 1;
    assert url[..p - 1] == url[..i];
    assert url[p..p + |h|] == h;
    assert '@' !in h by {
      assert forall x :: x in h ==> x in url[i + 1..][..j];
    }
  }

  /** `t` is the suffix of `s` after its last `c` (all of `s` when there is none). */
  predicate SuffixAfter(s: string, t: string, c: char)
  {
    |t| <= |s| && s[|s| - |t|..] == t && c !in t && (|t| < |s| ==> s[|s| - |t| - 1] == c)
  }

  /** The value computed by `url.split('?')[-1].split('=')[-1]`. */
  lemma TrailingFromSplit(url: string)
    ensures TrailingValue(url, LastPart(LastPart(url, '?'), '='))
  {
    var a := LastPart(url, '?');
    LastPartSuffix(url, '?');
    LastPartSuffix(a, '=');
    TrailingCompose(url, a, LastPart(a, '='));
  }

  /** The last part of a split is the suffix after the last separator. */
  lemma LastPartSuffix(s: string, c: char)
    ensures SuffixAfter(s, LastPart(s, c), c)
  {
    SplitLast(s, c);
  }

  lemma TrailingCompose(url: string, a: string, b: string)
    requires SuffixAfter(url, a, '?') && SuffixAfter(a, b, '=')
    ensures TrailingValue(url, b)
  {
    assert url[|url| - |b|..] == a[|a| - |b|..];
    assert '?' !in b by {
      assert forall x :: x in b ==> x in a;
    }
    if |b| < |a| {
      assert url[|url| - |b| - 1] == a[|a| - |b| - 1];
    }
  }

  // ---------------------------------------------------------------------
  // The descriptions pin the id down

  /** At most one string is a trailing value of a URL. */
  lemma TrailingValueUnique(url: string, v1: string, v2: string)
    requires TrailingValue(url, v1) && TrailingValue(url, v2)
    ensures v1 == v2
  {
  }

  /** At most one string is the handle of a URL. */
  lemma HandleUnique(url: string, p1: int, h1: string, p2: int, h2: string)
    requires HandleAt(url, p1, h1) && HandleAt(url, p2, h2)
    ensures h1 == h2
  {
  }

  // ---------------------------------------------------------------------
  // Worked examples

  /** A handle URL is a channel URL and its id is the handle. */
  lemma HandleUrlExample(h: string)
    requires '@' !in h && '/' !in h
    ensures var url := "https://www.youtube.com/@" + h + "/videos";
      LinkType(url) == Some(Channel) && GetId(Some(Channel), url) == Ok(h)
  {
    var pre := "https://www.youtube.com/@";
    var url := pre + h + "/videos";
    assert url == "https://www." + "youtube.com/@" + (h + "/videos");
    ContainsInfix("https://www.", "youtube.com/@", h + "/videos");
    assert url[|pre| - 1] == '@';
    assert '@' !in url[..|pre| - 1] by {
      assert url[..|pre| - 1] == "https://www.youtube.com/";
    }
    assert url[|pre|..|pre| + |h|] == h;
    assert url[|pre| + |h|] == '/';
    assert HandleAt(url, |pre|, h);
    assert '@' in url;
    GetIdShape(Some(Channel), url);
    var p :| HandleAt(url, p, GetId(Some(Channel), url).value);
    HandleUnique(url, p, GetId(Some(Channel), url).value, |pre|, h);
  }

  /** A URL without any marker is rejected. */
  lemma NoMarkerExample()
    ensures LinkType("https://x/not-a-catalog-link") == None
  {
    var url := "https://x/not-a-catalog-link";
    assert 'y' !in url;
    forall k ensures !Contains(url, Marker(k)) {
      assert 'y' in Marker(k) by {
        assert Marker(k)[0] == 'y';
      }
      if Contains(url, Marker(k)) {
        ContainsChars(url, Marker(k), 'y');
      }
    }
  }

  /** The value of a watch URL is the video id. */
  lemma WatchUrlExample(v: string)
    requires '?' !in v && '=' !in v
    ensures GetId(Some(Video), "https://www.youtube.com/watch?v=" + v) == Ok(v)
  {
    var url := "https://www.youtube.com/watch?v=" + v;
    assert url[|url| - |v|..] == v;
    assert url[|url| - |v| - 1] == '=';
    GetIdShape(Some(Video), url);
    TrailingValueUnique(url, v, GetId(Some(Video), url).value);
  }

  /** As written, `get_id` fails on every watch URL, although the intended
      id is plainly there. */
  lemma GetIdAsWrittenFails(v: string)
    requires '?' !in v && '=' !in v
    ensures GetIdAsWritten("https://www.youtube.com/watch?v=" + v) == Raise(NameError)
    ensures GetId(Some(Video), "https://www.youtube.com/watch?v=" + v) == Ok(v)
  {
    WatchUrlExample(v);
  }
}
