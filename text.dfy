/** The Python string operations the archiver relies on (`in`, `replace`,
    `lower`, `split`, `strip`, slicing and `str` of an integer), written as
    functions over `string`, with the facts about them that the rest of the
    model needs. */
module Text {

  // ---------------------------------------------------------------------
  // Substring test: `pat in s`

  /** Python's `pat in s` for strings: `pat` occurs somewhere in `s`. */
  function Contains(s: string, pat: string): bool
    decreases |s|
  {
    pat <= s || (|s| > 0 && Contains(s[1..], pat))
  }

  /** `pat` occurs in `s` starting at index `i`. */
  predicate OccursAt(s: string, pat: string, i: int)
  {
    0 <= i <= |s| - |pat| && s[i..i + |pat|] == pat
  }

  /** `Contains` holds exactly when `pat` occurs at some position of `s`. */
  lemma {:induction false} ContainsAt(s: string, pat: string)
    ensures Contains(s, pat) <==> exists i :: OccursAt(s, pat, i)
  {
    if pat <= s {
      assert OccursAt(s, pat, 0);
    } else if |s| == 0 {
      assert forall i :: !OccursAt(s, pat, i);
    } else {
      ContainsAt(s[1..], pat);
      if exists i :: OccursAt(s, pat, i) {
        var i :| OccursAt(s, pat, i);
        assert i != 0;
        assert OccursAt(s[1..], pat, i - 1) by {
          assert s[1..][i - 1..i - 1 + |pat|] == s[i..i + |pat|];
        }
      }
      if exists j :: OccursAt(s[1..], pat, j) {
        var j :| OccursAt(s[1..], pat, j);
        assert OccursAt(s, pat, j + 1) by {
          var u, v := s[1..][j..j + |pat|], s[j + 1..j + 1 + |pat|];
          assert forall k :: 0 <= k < |pat| ==> u[k] == v[k];
        }
      }
    }
  }

  /** A string that occurs in `s` only uses characters of `s`. */
  lemma {:induction false} ContainsChars(s: string, pat: string, ch: char)
    requires Contains(s, pat) && ch in pat
    ensures ch in s
  {
    if pat <= s {
    } else {
      ContainsChars(s[1..], pat, ch);
    }
  }

  /** Whatever surrounds it, `pat` occurs in `a + pat + b`. */
  lemma {:induction false} ContainsInfix(a: string, pat: string, b: string)
    ensures Contains(a + pat + b, pat)
  {
    if a == [] {
      assert a + pat + b == pat + b;
    } else {
      assert (a + pat + b)[1..] == a[1..] + pat + b;
      ContainsInfix(a[1..], pat, b);
    }
  }

  // ---------------------------------------------------------------------
  // `s.replace(pat, rep)`

  /** Python's `s.replace(pat, rep)` for a non-empty `pat`: occurrences are
      replaced left to right, without overlap. */
  function ReplaceAll(s: string, pat: string, rep: string): string
    requires |pat| > 0
    decreases |s|
  {
    if |s| == 0 then ""
    else if pat <= s then rep + ReplaceAll(s[|pat|..], pat, rep)
    else [s[0]] + ReplaceAll(s[1..], pat, rep)
  }

  /** Every character of a replacement's result comes from the input or from `rep`. */
  lemma {:induction false} ReplaceChars(s: string, pat: string, rep: string)
    requires |pat| > 0
    ensures forall ch :: ch in ReplaceAll(s, pat, rep) ==> ch in s || ch in rep
  {
    if |s| == 0 {
    } else if pat <= s {
      ReplaceChars(s[|pat|..], pat, rep);
      forall ch | ch in s[|pat|..] ensures ch in s {
        var k :| 0 <= k < |s[|pat|..]| && s[|pat|..][k] == ch;
        assert s[|pat| + k] == ch;
      }
    } else {
      ReplaceChars(s[1..], pat, rep);
      forall ch | ch in s[1..] ensures ch in s {
        var k :| 0 <= k < |s[1..]| && s[1..][k] == ch;
        assert s[1 + k] == ch;
      }
    }
  }

  /** Replacing a single character by text without it removes it entirely. */
  lemma {:induction false} ReplaceRemovesChar(s: string, c: char, rep: string)
    requires c !in rep
    ensures c !in ReplaceAll(s, [c], rep)
  {
    if |s| == 0 {
    } else if [c] <= s {
      ReplaceRemovesChar(s[1..], c, rep);
    } else {
      assert s[0] != c;
      ReplaceRemovesChar(s[1..], c, rep);
    }
  }

  /** When `pat` does not occur, `replace` leaves the string as it is. */
  lemma {:induction false} ReplaceAbsent(s: string, pat: string, rep: string)
    requires |pat| > 0 && !Contains(s, pat)
    ensures ReplaceAll(s, pat, rep) == s
  {
    if |s| > 0 {
      ReplaceAbsent(s[1..], pat, rep);
      assert s == [s[0]] + s[1..];
    }
  }

  /** Deleting occurrences (`replace(pat, '')`) never lengthens a string. */
  lemma {:induction false} DeleteShrinks(s: string, pat: string)
    requires |pat| > 0
    ensures |ReplaceAll(s, pat, "")| <= |s|
  {
    if |s| == 0 {
    } else if pat <= s {
      DeleteShrinks(s[|pat|..], pat);
    } else {
      DeleteShrinks(s[1..], pat);
    }
  }

  // ---------------------------------------------------------------------
  // `s.lower()`

  predicate IsUpper(ch: char) { 'A' <= ch <= 'Z' }

  function LowerChar(ch: char): char
  {
    if IsUpper(ch) then (ch as int - 'A' as int + 'a' as int) as char else ch
  }

  /** `s.lower()` on the ASCII letters; every other character is kept. */
  function Lower(s: string): (r: string)
    ensures |r| == |s|
    ensures forall ch :: ch in r ==> !IsUpper(ch)
  {
    seq(|s|, i requires 0 <= i < |s| => LowerChar(s[i]))
  }

  // ---------------------------------------------------------------------
  // `s.split(sep)` and `sep.join(parts)`

  /** Python's `s.split(sep)` for a one-character separator. */
  function Split(s: string, sep: char): (parts: seq<string>)
    ensures |parts| >= 1
    decreases |s|
  {
    if |s| == 0 then [""]
    else
      var rest := Split(s[1..], sep);
      if s[0] == sep then [""] + rest
      else [[s[0]] + rest[0]] + rest[1..]
  }

  /** Python's `sep.join(parts)`. */
  function Join(parts: seq<string>, sep: char): string
  {
    if |parts| == 0 then ""
    else if |parts| == 1 then parts[0]
    else parts[0] + [sep] + Join(parts[1..], sep)
  }

  /** Number of occurrences of `c` in `s`. */
  function Count(s: string, c: char): nat
  {
    if |s| == 0 then 0 else (if s[0] == c then 1 else 0) + Count(s[1..], c)
  }

  /** Index of the first `c` in `s`, or `|s|` when there is none. */
  function IndexOf(s: string, c: char): (i: nat)
    ensures i <= |s| && c !in s[..i]
    ensures i < |s| <==> c in s
    ensures i < |s| ==> s[i] == c
  {
    if |s| == 0 then 0
    else if s[0] == c then 0
    else
      var j := IndexOf(s[1..], c);
      assert s[..j + 1] == [s[0]] + s[1..][..j];
      j + 1
  }

  /** Joining the parts with the separator gives back the string. */
  lemma {:induction false} SplitJoin(s: string, sep: char)
    ensures Join(Split(s, sep), sep) == s
  {
    if |s| > 0 {
      var rest := Split(s[1..], sep);
      SplitJoin(s[1..], sep);
      if s[0] == sep {
        assert ([""] + rest)[1..] == rest;
      } else {
        var parts := [[s[0]] + rest[0]] + rest[1..];
        if |rest| == 1 {
          assert parts == [[s[0]] + rest[0]];
        } else {
          assert parts[1..] == rest[1..];
          assert Join(rest, sep) == rest[0] + [sep] + Join(rest[1..], sep);
        }
      }
    }
  }

  /** No part contains the separator. */
  lemma {:induction false} SplitPartsFree(s: string, sep: char)
    ensures forall k :: 0 <= k < |Split(s, sep)| ==> sep !in Split(s, sep)[k]
  {
    if |s| > 0 {
      SplitPartsFree(s[1..], sep);
      var rest := Split(s[1..], sep);
      if s[0] != sep {
        assert sep !in rest[0];
        assert sep !in [s[0]] + rest[0];
      }
    }
  }

  /** There is one more part than there are separators. */
  lemma {:induction false} SplitCount(s: string, sep: char)
    ensures |Split(s, sep)| == Count(s, sep) + 1
  {
    if |s| > 0 {
      SplitCount(s[1..], sep);
    }
  }

  /** Splitting cuts at the first separator and splits the rest the same way. */
  ghost predicate CutsAtFirst(s: string, sep: char)
  {
    && (sep !in s ==> Split(s, sep) == [s])
    && (sep in s ==> Split(s, sep) == [s[..IndexOf(s, sep)]] + Split(s[IndexOf(s, sep) + 1..], sep))
  }

  lemma {:induction false} SplitAtFirst(s: string, sep: char)
    ensures sep !in s ==> Split(s, sep) == [s]
    ensures sep in s ==> Split(s, sep) == [s[..IndexOf(s, sep)]] + Split(s[IndexOf(s, sep) + 1..], sep)
    decreases |s|
  {
    if |s| > 0 {
      SplitAtFirst(s[1..], sep);
      SplitAtFirstStep(s, sep);
    }
  }

  lemma SplitAtFirstStep(s: string, sep: char)
    requires |s| > 0 && CutsAtFirst(s[1..], sep)
    ensures CutsAtFirst(s, sep)
  {
    if s[0] == sep {
      assert s[..0] == "";
    } else {
      var i := IndexOf(s[1..], sep);
      if sep in s {
        assert sep in s[1..];
        assert s[..i + 1] == [s[0]] + s[1..][..i];
        assert s[1..][i + 1..] == s[i + 2..];
      } else {
        assert s == [s[0]] + s[1..];
      }
    }
  }

  /** A string without the character has no occurrence of it to count. */
  lemma {:induction false} CountAbsent(s: string, c: char)
    requires c !in s
    ensures Count(s, c) == 0
  {
    if |s| > 0 {
      assert c !in s[1..];
      CountAbsent(s[1..], c);
    }
  }

  /** The last part is the suffix of `s` after its last separator
      (all of `s` when there is none). */
  ghost predicate LastIsSuffix(s: string, sep: char)
  {
    var parts := Split(s, sep); var l := parts[|parts| - 1];
    |l| <= |s| && s[|s| - |l|..] == l && sep !in l && (|l| < |s| ==> s[|s| - |l| - 1] == sep)
  }

  lemma {:induction false} SplitLast(s: string, sep: char)
    ensures var parts := Split(s, sep); var l := parts[|parts| - 1];
      |l| <= |s| && s[|s| - |l|..] == l && sep !in l &&
      (|l| < |s| ==> s[|s| - |l| - 1] == sep)
    decreases |s|
  {
    if |s| == 0 {
      assert LastIsSuffix(s, sep);
    } else {
      SplitLast(s[1..], sep);
      assert LastIsSuffix(s[1..], sep);
      SplitLastStep(s, sep);
      assert LastIsSuffix(s, sep);
    }
  }

  lemma SplitLastStep(s: string, sep: char)
    requires |s| > 0 && LastIsSuffix(s[1..], sep)
    ensures LastIsSuffix(s, sep)
  {
    var rest := Split(s[1..], sep);
    var l := rest[|rest| - 1];
    var parts := Split(s, sep);
    assert s[1..][|s| - 1 - |l|..] == s[|s| - |l|..];
    if s[0] == sep {
      assert parts == [""] + rest;
      assert parts[|parts| - 1] == l;
    } else if |rest| == 1 {
      SplitJoin(s[1..], sep);
      SplitPartsFree(s[1..], sep);
      assert rest[0] == s[1..];
      assert [s[0]] + s[1..] == s;
      assert parts == [[s[0]] + rest[0]] + rest[1..];
      assert rest[1..] == [];
      assert parts == [s];
    } else {
      assert parts == [[s[0]] + rest[0]] + rest[1..];
      assert parts[|parts| - 1] == l;
      if |l| == |s| - 1 {
        assert l == s[1..];
        SplitCount(s[1..], sep);
        CountAbsent(s[1..], sep);
        assert false;
      }
    }
  }

  // ---------------------------------------------------------------------
  // Slicing and whitespace

  /** Python's `s[:n]`, which never fails: a short string is kept whole. */
  function Take(s: string, n: nat): (r: string)
    ensures r <= s && |r| == if |s| <= n then |s| else n
  {
    if |s| <= n then s else s[..n]
  }

  predicate IsSpace(ch: char)
  {
    ch == ' ' || ch == '\t' || ch == '\n' || ch == '\r' || ch == '\U{000B}' || ch == '\U{000C}'
  }

  function StripLeft(s: string): string
    decreases |s|
  {
    if |s| > 0 && IsSpace(s[0]) then StripLeft(s[1..]) else s
  }

  function StripRight(s: string): string
    decreases |s|
  {
    if |s| > 0 && IsSpace(s[|s| - 1]) then StripRight(s[..|s| - 1]) else s
  }

  /** Python's `s.strip()` on ASCII whitespace. */
  function Strip(s: string): string
  {
    StripRight(StripLeft(s))
  }

  /** A stripped string neither starts nor ends with whitespace and is a
      piece of the original. */
  lemma {:induction false} StripTrims(s: string)
    ensures var r := Strip(s);
      (|r| > 0 ==> !IsSpace(r[0]) && !IsSpace(r[|r| - 1])) &&
      exists i :: OccursAt(s, r, i)
  {
    var l := StripLeft(s);
    var i := StripLeftSuffix(s);
    var r := StripRight(l);
    StripRightPrefix(l);
    assert OccursAt(s, r, i) by {
      assert s[i..i + |r|] == l[..|r|];
    }
  }

  lemma {:induction false} StripLeftSuffix(s: string) returns (i: nat)
    ensures i <= |s| && StripLeft(s) == s[i..]
    ensures |StripLeft(s)| > 0 ==> !IsSpace(StripLeft(s)[0])
    decreases |s|
  {
    if |s| > 0 && IsSpace(s[0]) {
      var j := StripLeftSuffix(s[1..]);
      i := j + 1;
      assert s[1..][j..] == s[i..];
    } else {
      i := 0;
    }
  }

  lemma {:induction false} StripRightPrefix(s: string)
    ensures var r := StripRight(s); |r| <= |s| && r == s[..|r|]
    ensures var r := StripRight(s); |r| > 0 ==> !IsSpace(r[|r| - 1])
    decreases |s|
  {
    if |s| > 0 && IsSpace(s[|s| - 1]) {
      StripRightPrefix(s[..|s| - 1]);
      var r := StripRight(s);
      assert s[..|s| - 1][..|r|] == s[..|r|];
    }
  }

  // ---------------------------------------------------------------------
  // `str(n)` for integers

  predicate IsDigit(ch: char) { '0' <= ch <= '9' }

  function DigitChar(d: nat): (ch: char)
    requires d < 10
    ensures IsDigit(ch)
  {
    ('0' as int + d) as char
  }

  function DigitValue(ch: char): (d: nat)
    requires IsDigit(ch)
    ensures d < 10
  {
    ch as int - '0' as int
  }

  /** Python's `str(n)` for a non-negative integer: decimal, no leading zeros. */
  function NatToString(n: nat): string
    decreases n
  {
    if n < 10 then [DigitChar(n)] else NatToString(n / 10) + [DigitChar(n % 10)]
  }

  /** Python's `str(i)` for any integer. */
  function IntToString(i: int): string
  {
    if i < 0 then "-" + NatToString(-i) else NatToString(i)
  }

  predicate IsDecimal(s: string)
  {
    |s| > 0 && forall k :: 0 <= k < |s| ==> IsDigit(s[k])
  }

  /** The value of a string of decimal digits (the inverse of `NatToString`). */
  function DecimalValue(s: string): nat
    requires forall k :: 0 <= k < |s| ==> IsDigit(s[k])
  {
    if |s| == 0 then 0 else DecimalValue(s[..|s| - 1]) * 10 + DigitValue(s[|s| - 1])
  }

  /** `str(n)` writes `n` in decimal: reading the digits back gives `n`,
      and there is no leading zero. */
  lemma {:induction false} NatToStringRoundTrip(n: nat)
    ensures IsDecimal(NatToString(n))
    ensures DecimalValue(NatToString(n)) == n
    ensures NatToString(n)[0] == '0' ==> n == 0
  {
    if n >= 10 {
      NatToStringRoundTrip(n / 10);
      var s := NatToString(n);
      assert s[..|s| - 1] == NatToString(n / 10);
    }
  }
}
