/** Turning channel, album and track names into path components
    (`clean_str`, main.py:46-63) and removing producer suffixes from channel
    names (`strip_producers`, main.py:40-44). */
module Sanitize {
  import opened Wrappers
  import opened Text

  /** The characters `clean_str` deletes, in the order it deletes them. */
  const Reserved: seq<char> := ['<', '>', ':', '"', '/', '\\', '|', '?', '*', '.']

  /** The big solidus U+29F8 that the provider uses in place of `/`. */
  const BigSolidus: char := '\U{29F8}'

  // ---------------------------------------------------------------------
  // clean_str

  /** The chain of `lower` and `replace` calls at the start of `clean_str`. */
  function Normalised(s: string): string
  {
    var a := Lower(s);
    var b := ReplaceAll(a, "/", "_");
    var c := ReplaceAll(b, [BigSolidus], "_");
    var d := ReplaceAll(c, " - topic", "");
    var e := ReplaceAll(d, " official", "");
    ReplaceAll(e, " ", "_")
  }

  /** `s` with every character of `cs` deleted. */
  function Without(s: string, cs: seq<char>): (r: string)
    ensures |r| <= |s|
    decreases |s|
  {
    if |s| == 0 then ""
    else (if s[0] in cs then "" else [s[0]]) + Without(s[1..], cs)
  }

  /** `Without` keeps exactly the characters of `s` outside `cs`. */
  lemma {:induction false} WithoutChars(s: string, cs: seq<char>)
    ensures forall ch :: ch in Without(s, cs) <==> ch in s && ch !in cs
    decreases |s|
  {
    if |s| > 0 {
      WithoutChars(s[1..], cs);
      assert s == [s[0]] + s[1..];
    }
  }

  /** `s.replace(c, '')` deletes the character `c` everywhere. */
  lemma {:induction false} DeleteCharIsWithout(s: string, c: char)
    ensures ReplaceAll(s, [c], "") == Without(s, [c])
    decreases |s|
  {
    if |s| > 0 {
      DeleteCharIsWithout(s[1..], c);
      if [c] <= s {
        assert s[|[c]|..] == s[1..];
      }
    }
  }

  /** Deleting the characters of `a`, then those of `b`, deletes those of both. */
  lemma {:induction false} WithoutTwice(s: string, a: seq<char>, b: seq<char>)
    ensures Without(Without(s, a), b) == Without(s, a + b)
    decreases |s|
  {
    if |s| > 0 {
      WithoutTwice(s[1..], a, b);
      if s[0] in a {
        assert Without(s, a) == Without(s[1..], a);
        assert Without(s, a + b) == Without(s[1..], a + b);
      } else {
        var t := Without(s, a);
        assert t == [s[0]] + Without(s[1..], a);
        assert t[1..] == Without(s[1..], a);
        assert Without(t, b) == (if s[0] in b then "" else [s[0]]) + Without(t[1..], b);
      }
    }
  }

  /** Deleting characters that do not occur changes nothing. */
  lemma {:induction false} WithoutAbsent(s: string, cs: seq<char>)
    requires forall ch :: ch in cs ==> ch !in s
    ensures Without(s, cs) == s
    decreases |s|
  {
    if |s| > 0 {
      assert s[0] in s;
      WithoutAbsent(s[1..], cs);
    }
  }

  /** `clean_str`. `input[-1]` raises `IndexError` when the normalised text is
      empty; a trailing space is then dropped and the reserved characters
      deleted. */
  function Cleaned(s: string): (r: Py<string>)
    ensures r.Raise? ==> r.fault == IndexError
  {
    var n := Normalised(s);
    if |n| == 0 then Raise(IndexError)
    else
      var m := if n[|n| - 1] == ' ' then n[..|n| - 1] else n;
      Ok(Without(m, Reserved))
  }

  /** A path component: no ASCII capital, no space, no big solidus and no
      reserved character. */
  predicate PathSafe(r: string)
  {
    forall ch :: ch in r ==> !IsUpper(ch) && ch != ' ' && ch != BigSolidus && ch !in Reserved
  }

  /** The normalised text has no capital, no `/`, no big solidus and no space. */
  lemma NormalisedChars(s: string)
    ensures forall ch :: ch in Normalised(s) ==> !IsUpper(ch) && ch != '/' && ch != BigSolidus && ch != ' '
  {
    var a := Lower(s);
    var b := ReplaceAll(a, "/", "_");
    var c := ReplaceAll(b, [BigSolidus], "_");
    var d := ReplaceAll(c, " - topic", "");
    var e := ReplaceAll(d, " official", "");
    ReplaceChars(a, "/", "_");
    ReplaceRemovesChar(a, '/', "_");
    ReplaceChars(b, [BigSolidus], "_");
    ReplaceRemovesChar(b, BigSolidus, "_");
    ReplaceChars(c, " - topic", "");
    ReplaceChars(d, " official", "");
    ReplaceChars(e, " ", "_");
    ReplaceRemovesChar(e, ' ', "_");
  }

  /** Whatever it is given, `clean_str` either raises `IndexError`, exactly
      when the normalised text is empty, or returns a path-safe string. */
  lemma CleanedIsPathSafe(s: string)
    ensures Cleaned(s).Raise? <==> Normalised(s) == []
    ensures Cleaned(s).Ok? ==> PathSafe(Cleaned(s).value)
  {
    var n := Normalised(s);
    if |n| > 0 {
      TrailingSpaceIsDead(s);
      assert Cleaned(s) == Ok(Without(n, Reserved));
      NormalisedChars(s);
      WithoutChars(n, Reserved);
    }
  }

  /** The trailing-space test of `clean_str` (main.py:55) never fires: every
      space has already become `_`. */
  lemma TrailingSpaceIsDead(s: string)
    ensures |Normalised(s)| > 0 ==> Normalised(s)[|Normalised(s)| - 1] != ' '
  {
    var n := Normalised(s);
    if |n| > 0 {
      NormalisedChars(s);
      assert n[|n| - 1] in n;
    }
  }

  /** `Lower` leaves a string without capitals as it is. */
  lemma LowerKeeps(s: string)
    requires forall ch :: ch in s ==> !IsUpper(ch)
    ensures Lower(s) == s
  {
    assert forall i :: 0 <= i < |s| ==> Lower(s)[i] == s[i] by {
      forall i | 0 <= i < |s| ensures Lower(s)[i] == s[i] {
        assert s[i] in s;
      }
    }
  }

  /** A replacement whose pattern uses a character `s` lacks leaves `s` as it is. */
  lemma ReplaceMissingChar(s: string, pat: string, rep: string, ch: char)
    requires |pat| > 0 && ch in pat && ch !in s
    ensures ReplaceAll(s, pat, rep) == s
  {
    if Contains(s, pat) {
      ContainsChars(s, pat, ch);
    }
    ReplaceAbsent(s, pat, rep);
  }

  /** A path-safe string passes through the normalisation unchanged. */
  lemma NormalisedKeepsSafe(r: string)
    requires PathSafe(r)
    ensures Normalised(r) == r
  {
    LowerKeeps(r);
    assert Reserved[4] == '/';
    ReplaceMissingChar(r, "/", "_", '/');
    ReplaceMissingChar(r, [BigSolidus], "_", BigSolidus);
    ReplaceMissingChar(r, " - topic", "", ' ');
    ReplaceMissingChar(r, " official", "", ' ');
    ReplaceMissingChar(r, " ", "_", ' ');
  }

  /** Cleaning a non-empty cleaned name again gives the same name, so paths
      built from cleaned names are stable. */
  lemma CleanedIdempotent(s: string)
    requires Cleaned(s).Ok? && |Cleaned(s).value| > 0
    ensures Cleaned(Cleaned(s).value) == Cleaned(s)
  {
    var r := Cleaned(s).value;
    CleanedIsPathSafe(s);
    NormalisedKeepsSafe(r);
    assert Normalised(r) == r;
    assert r[|r| - 1] in r;
    WithoutAbsent(r, Reserved);
    assert Cleaned(r) == Ok(Without(r, Reserved));
  }

  /** A prefix one longer is the prefix and the next element. */
  lemma PrefixStep(xs: seq<char>, i: nat)
    requires i < |xs|
    ensures xs[..i] + [xs[i]] == xs[..i + 1]
  {
  }

  /** `clean_str`, statement by statement: the reassignments of main.py:47-56
      and the loop of main.py:58-63. */
  method CleanStr(input: string) returns (r: Py<string>)
    ensures r == Cleaned(input)
  {
    var s := Lower(input);
    s := ReplaceAll(s, "/", "_");
    s := ReplaceAll(s, [BigSolidus], "_");
    s := ReplaceAll(s, " - topic", "");
    s := ReplaceAll(s, " official", "");
    s := ReplaceAll(s, " ", "_");
    assert s == Normalised(input);
    if |s| == 0 {
      return Raise(IndexError);
    }
    if s[|s| - 1] == ' ' {
      s := s[..|s| - 1];
    }
    ghost var m := s;
    assert Cleaned(input) == Ok(Without(m, Reserved));
    assert s == Without(m, []) by {
      WithoutAbsent(m, []);
    }
    var i := 0;
    while i < |Reserved|
      invariant 0 <= i <= |Reserved|
      invariant s == Without(m, Reserved[..i])
    {
      var c := Reserved[i];
      if c in s {
        DeleteCharIsWithout(s, c);
        s := ReplaceAll(s, [c], "");
      } else {
        WithoutAbsent(s, [c]);
      }
      WithoutTwice(m, Reserved[..i], [c]);
      PrefixStep(Reserved, i);
      i := i + 1;
    }
    assert Reserved[..i] == Reserved;
    return Ok(s);
  }

  // ---------------------------------------------------------------------
  // strip_producers

  /** `strip_producers`: four single-pass deletions, in this order. */
  function StripProducers(s: string): string
  {
    var a := ReplaceAll(s, " - Topic", "");
    var b := ReplaceAll(a, " Official", "");
    var c := ReplaceAll(b, "Official", "");
    ReplaceAll(c, "official", "")
  }

  /** Stripping producers only deletes: the result is no longer than the name
      and uses only its characters. */
  lemma StripProducersShrinks(s: string)
    ensures |StripProducers(s)| <= |s|
    ensures forall ch :: ch in StripProducers(s) ==> ch in s
  {
    var a := ReplaceAll(s, " - Topic", "");
    var b := ReplaceAll(a, " Official", "");
    var c := ReplaceAll(b, "Official", "");
    DeleteShrinks(s, " - Topic");
    DeleteShrinks(a, " Official");
    DeleteShrinks(b, "Official");
    DeleteShrinks(c, "official");
    ReplaceChars(s, " - Topic", "");
    ReplaceChars(a, " Official", "");
    ReplaceChars(b, "Official", "");
    ReplaceChars(c, "official", "");
  }

  /** A name with none of the four producer markers is kept as it is. */
  lemma StripProducersKeepsPlain(s: string)
    requires !Contains(s, " - Topic") && !Contains(s, "Official") && !Contains(s, "official")
    ensures StripProducers(s) == s
  {
    if Contains(s, " Official") {
      ContainsAt(s, " Official");
      var i :| OccursAt(s, " Official", i);
      assert OccursAt(s, "Official", i + 1) by {
        assert s[i + 1..i + 9] == s[i..i + 9][1..];
      }
      ContainsAt(s, "Official");
    }
    ReplaceAbsent(s, " - Topic", "");
    ReplaceAbsent(s, " Official", "");
    ReplaceAbsent(s, "Official", "");
    ReplaceAbsent(s, "official", "");
  }
}
