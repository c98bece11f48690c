/**
 * Character-level stand-ins for the Python string operations the core relies on:
 * `str.split(sep)`, `str.split()`, `re.split(r'\s+', ...)`, `str.join`, `str.index`,
 * `str.isdigit`, `int(...)` and `str(int)`. Whitespace is the set Python 3 uses for all
 * of these (`str.isspace`); digits are ASCII only.
 */
module Text {
  import opened Wrappers

  /**
   * Python 3 `str.isspace()`, which is also what `\s`, `str.split()`, `str.strip()` and
   * `int()` treat as whitespace: the ASCII controls tab to carriage return and the four
   * separators U+001C-U+001F, the space, and the Unicode spaces and line separators.
   */
  predicate IsWhitespace(c: char)
  {
    ('\t' <= c <= '\r') || ('\U{001C}' <= c <= ' ') || c == '\U{0085}' || c == '\U{00A0}'
    || c == '\U{1680}' || ('\U{2000}' <= c <= '\U{200A}') || c == '\U{2028}' || c == '\U{2029}'
    || c == '\U{202F}' || c == '\U{205F}' || c == '\U{3000}'
  }

  predicate IsDigit(c: char)
  {
    '0' <= c <= '9'
  }

  /**
   * `\w` as the Python 2 code of the converter reads it, without `re.UNICODE`: ASCII letters,
   * digits and the underscore.
   */
  predicate IsWordChar(c: char)
  {
    ('a' <= c <= 'z') || ('A' <= c <= 'Z') || IsDigit(c) || c == '_'
  }

  predicate HasNoWhitespace(s: string)
  {
    forall i :: 0 <= i < |s| ==> !IsWhitespace(s[i])
  }

  predicate StartsWith(s: string, prefix: string)
  {
    |prefix| <= |s| && s[..|prefix|] == prefix
  }

  /** Python `str.isdigit()`: non-empty and every character a digit. */
  predicate IsDigits(s: string)
  {
    |s| > 0 && forall i :: 0 <= i < |s| ==> IsDigit(s[i])
  }

  // ---------------------------------------------------------------------------
  // Searching

  /** The first index of `c` in `s`, if any. */
  function IndexOf(s: string, c: char): (r: Option<nat>)
    ensures r.Some? ==> r.value < |s| && s[r.value] == c && c !in s[..r.value]
    ensures r.None? ==> c !in s
  {
    if |s| == 0 then None
    else if s[0] == c then Some(0)
    else
      match IndexOf(s[1..], c)
      case None => None
      case Some(i) => assert s[1..][..i] == s[1..i + 1]; Some(i + 1)
  }

  /** The text before the first `c`, or all of `s` (`s.split(c)[0]`). */
  function Before(s: string, c: char): (r: string)
    ensures c !in r
    ensures c in s ==> |r| < |s| && s[|r|] == c && s[..|r|] == r
    ensures c !in s ==> r == s
  {
    match IndexOf(s, c)
    case None => s
    case Some(i) => s[..i]
  }

  /** `token` occurs in `text` at position `p`. */
  predicate OccursAt(text: string, token: string, p: int)
  {
    0 <= p && p + |token| <= |text| && text[p..p + |token|] == token
  }

  /** Python `text.index(token, start)`: the first occurrence at or after `start`. */
  function Find(text: string, token: string, start: nat): (r: Option<nat>)
    ensures r.Some? ==> start <= r.value && OccursAt(text, token, r.value)
    ensures r.Some? ==> forall q :: start <= q < r.value ==> !OccursAt(text, token, q)
    ensures r.None? ==> forall q :: start <= q ==> !OccursAt(text, token, q)
    decreases |text| - start
  {
    if start + |token| > |text| then None
    else if text[start..start + |token|] == token then Some(start)
    else Find(text, token, start + 1)
  }

  // ---------------------------------------------------------------------------
  // Splitting and joining

  /** Python `sep.join(parts)`. */
  function Join(parts: seq<string>, sep: string): string
  {
    if |parts| == 0 then ""
    else if |parts| == 1 then parts[0]
    else parts[0] + sep + Join(parts[1..], sep)
  }

  /** Python `s.split(c)` for a one-character separator. */
  function Split(s: string, c: char): (parts: seq<string>)
    ensures |parts| >= 1
    decreases |s|
  {
    match IndexOf(s, c)
    case None => [s]
    case Some(i) => [s[..i]] + Split(s[i + 1..], c)
  }

  /** The parts of a split do not contain the separator, and joining them with it gives the string back. */
  lemma {:induction false} SplitMeaning(s: string, c: char)
    ensures var parts := Split(s, c);
      && (forall k :: 0 <= k < |parts| ==> c !in parts[k])
      && Join(parts, [c]) == s
    decreases |s|
  {
    match IndexOf(s, c)
    case None =>
    case Some(i) =>
      SplitMeaning(s[i + 1..], c);
      var rest := Split(s[i + 1..], c);
      assert Split(s, c) == [s[..i]] + rest;
      assert ([s[..i]] + rest)[1..] == rest;
      assert s == s[..i] + [c] + s[i + 1..];
  }

  /** Python `s.split(c, 1)` unpacked into two names: fails when `c` does not occur. */
  function SplitOnce(s: string, c: char): (r: Option<(string, string)>)
    ensures r.Some? <==> c in s
    ensures r.Some? ==> c !in r.value.0 && s == r.value.0 + [c] + r.value.1
  {
    match IndexOf(s, c)
    case None => None
    case Some(i) =>
      assert s == s[..i] + [c] + s[i + 1..];
      Some((s[..i], s[i + 1..]))
  }

  lemma {:induction false} SplitOnceOfJoin(a: string, c: char, b: string)
    requires c !in a
    ensures SplitOnce(a + [c] + b, c) == Some((a, b))
  {
    var s := a + [c] + b;
    var r := SplitOnce(s, c);
    assert s[|a|] == c;
    var (x, y) := r.value;
    assert x == a;
    assert y == s[|a| + 1..] == b;
  }

  lemma {:induction false} SplitOfJoin(parts: seq<string>, c: char)
    requires |parts| >= 1
    requires forall k :: 0 <= k < |parts| ==> c !in parts[k]
    ensures Split(Join(parts, [c]), c) == parts
    decreases |parts|
  {
    if |parts| > 1 {
      var rest := Join(parts[1..], [c]);
      assert Join(parts, [c]) == parts[0] + [c] + rest;
      var s := parts[0] + [c] + rest;
      SplitOnceOfJoin(parts[0], c, rest);
      var i := IndexOf(s, c).value;
      assert s[..i] == parts[0] && s[i + 1..] == rest;
      SplitOfJoin(parts[1..], c);
    } else {
      assert IndexOf(parts[0], c).None?;
    }
  }

  /** The length of the leading run of characters satisfying `ws == IsWhitespace`. */
  function RunLength(s: string, ws: bool): (n: nat)
    ensures n <= |s|
  {
    if |s| == 0 || IsWhitespace(s[0]) != ws then 0 else 1 + RunLength(s[1..], ws)
  }

  /** The run is as long as it can be: all of its characters match, and the next one does not. */
  lemma {:induction false} RunLengthMeaning(s: string, ws: bool)
    ensures var n := RunLength(s, ws);
      && (forall i :: 0 <= i < n ==> IsWhitespace(s[i]) == ws)
      && (n < |s| ==> IsWhitespace(s[n]) != ws)
  {
    if |s| > 0 && IsWhitespace(s[0]) == ws {
      RunLengthMeaning(s[1..], ws);
      var n := RunLength(s, ws);
      forall i | 0 <= i < n ensures IsWhitespace(s[i]) == ws {
        if i > 0 {
          assert s[i] == s[1..][i - 1];
        }
      }
      if n < |s| {
        assert s[n] == s[1..][n - 1];
      }
    }
  }

  /** Python `s.split()`: the maximal runs of non-whitespace characters. */
  function Words(s: string): (ws: seq<string>)
    ensures forall k :: 0 <= k < |ws| ==> |ws[k]| > 0 && HasNoWhitespace(ws[k])
    decreases |s|
  {
    if |s| == 0 then []
    else if IsWhitespace(s[0]) then Words(s[1..])
    else
      var n := RunLength(s, false);
      RunLengthMeaning(s, false);
      [s[..n]] + Words(s[n..])
  }

  lemma {:induction false} WordsAfterSpace(s: string)
    ensures Words([' '] + s) == Words(s)
  {
    assert ([' '] + s)[1..] == s;
  }

  lemma {:induction false} WordsOfWordFirst(w: string, rest: string)
    requires |w| > 0 && HasNoWhitespace(w)
    requires |rest| == 0 || IsWhitespace(rest[0])
    ensures Words(w + rest) == [w] + Words(rest)
  {
    var s := w + rest;
    RunLengthOfWord(w, rest);
    assert s[..|w|] == w && s[|w|..] == rest;
  }

  lemma {:induction false} RunLengthOfWord(w: string, rest: string)
    requires HasNoWhitespace(w)
    requires |rest| == 0 || IsWhitespace(rest[0])
    ensures RunLength(w + rest, false) == |w|
    decreases |w|
  {
    if |w| > 0 {
      assert (w + rest)[1..] == w[1..] + rest;
      RunLengthOfWord(w[1..], rest);
    }
  }

  /** Joining words with single spaces and splitting on whitespace gives the words back. */
  lemma {:induction false} WordsOfJoin(ws: seq<string>)
    requires forall k :: 0 <= k < |ws| ==> |ws[k]| > 0 && HasNoWhitespace(ws[k])
    ensures Words(Join(ws, " ")) == ws
    decreases |ws|
  {
    if |ws| == 1 {
      WordsOfWordFirst(ws[0], "");
      assert ws[0] + "" == ws[0];
    } else if |ws| > 1 {
      var rest := Join(ws[1..], " ");
      assert Join(ws, " ") == ws[0] + ([' '] + rest);
      WordsOfWordFirst(ws[0], [' '] + rest);
      WordsAfterSpace(rest);
      WordsOfJoin(ws[1..]);
    }
  }

  /** A word followed by one whitespace character is the first of the words. */
  lemma WordsAtSpace(w: string, c: char, rest: string)
    requires |w| > 0 && HasNoWhitespace(w) && IsWhitespace(c)
    ensures Words(w + [c] + rest) == [w] + Words(rest)
  {
    assert w + [c] + rest == w + ([c] + rest);
    WordsOfWordFirst(w, [c] + rest);
    assert ([c] + rest)[1..] == rest;
  }

  /** Python `re.split(r'\s+', s)`: cut at every maximal run of whitespace. */
  function SplitSpaces(s: string): (parts: seq<string>)
    ensures |parts| >= 1
    decreases |s|
  {
    var i := RunLength(s, false);
    if i == |s| then [s]
    else
      var j := i + RunLength(s[i..], true);
      [s[..i]] + SplitSpaces(s[j..])
  }

  /** No part of a whitespace split contains whitespace. */
  lemma {:induction false} SplitSpacesParts(s: string)
    ensures forall k :: 0 <= k < |SplitSpaces(s)| ==> HasNoWhitespace(SplitSpaces(s)[k])
    decreases |s|
  {
    var i := RunLength(s, false);
    RunLengthMeaning(s, false);
    if i < |s| {
      var j := i + RunLength(s[i..], true);
      SplitSpacesParts(s[j..]);
      assert SplitSpaces(s) == [s[..i]] + SplitSpaces(s[j..]);
      assert HasNoWhitespace(s[..i]);
    }
  }

  /** A field followed by one whitespace character and a field is cut there. */
  lemma SplitSpacesAtSpace(w: string, c: char, rest: string)
    requires HasNoWhitespace(w) && IsWhitespace(c) && (|rest| == 0 || !IsWhitespace(rest[0]))
    ensures SplitSpaces(w + [c] + rest) == [w] + SplitSpaces(rest)
  {
    var s := w + [c] + rest;
    assert s == w + ([c] + rest);
    RunLengthOfWord(w, [c] + rest);
    assert s[|w|..] == [c] + rest;
    assert RunLength([c] + rest, true) == 1 by { assert ([c] + rest)[1..] == rest; }
    assert s[|w| + 1..] == rest;
  }

  // ---------------------------------------------------------------------------
  // Numbers

  function DigitValue(c: char): nat
    requires IsDigit(c)
  {
    (c as int - '0' as int) as nat
  }

  function DigitChar(d: nat): (c: char)
    requires d < 10
    ensures IsDigit(c) && DigitValue(c) == d
  {
    ('0' as int + d) as char
  }

  /** The value of a digit string (Python `int(s)` for `s.isdigit()`). */
  function NatValue(s: string): nat
    requires forall i :: 0 <= i < |s| ==> IsDigit(s[i])
  {
    if |s| == 0 then 0 else 10 * NatValue(s[..|s| - 1]) + DigitValue(s[|s| - 1])
  }

  /** Python `str(n)` for a natural number. */
  function NatToString(n: nat): (s: string)
    ensures IsDigits(s)
  {
    if n < 10 then [DigitChar(n)] else NatToString(n / 10) + [DigitChar(n % 10)]
  }

  lemma {:induction false} NatValueOfNatToString(n: nat)
    ensures NatValue(NatToString(n)) == n
  {
    var s := NatToString(n);
    if n >= 10 {
      assert s[..|s| - 1] == NatToString(n / 10);
      NatValueOfNatToString(n / 10);
    }
  }

  /** Printed numbers never start with `0` unless they are `0`. */
  lemma {:induction false} NatToStringZero(n: nat)
    ensures NatToString(n) == "0" <==> n == 0
    ensures n != 0 ==> NatToString(n)[0] != '0'
  {
    if n >= 10 {
      NatToStringZero(n / 10);
    }
  }

  lemma NatToStringInjective(m: nat, n: nat)
    requires NatToString(m) == NatToString(n)
    ensures m == n
  {
    NatValueOfNatToString(m);
    NatValueOfNatToString(n);
  }

  /** Python `str(i)` for an integer. */
  function IntToString(i: int): string
  {
    if i < 0 then "-" + NatToString(-i) else NatToString(i)
  }

  /** The value of a non-empty digit string; none when `s` is empty or holds a non-digit. */
  function DigitsValue(s: string): Option<nat>
  {
    if |s| == 0 || !IsDigit(s[|s| - 1]) then None
    else if |s| == 1 then Some(DigitValue(s[0]))
    else
      match DigitsValue(s[..|s| - 1])
      case None => None
      case Some(v) => Some(10 * v + DigitValue(s[|s| - 1]))
  }

  lemma {:induction false} DigitsValueMeaning(s: string)
    ensures DigitsValue(s) == if IsDigits(s) then Some(NatValue(s)) else None
  {
    if |s| > 1 && IsDigit(s[|s| - 1]) {
      DigitsValueMeaning(s[..|s| - 1]);
      assert IsDigits(s) <==> IsDigits(s[..|s| - 1]) by {
        if IsDigits(s[..|s| - 1]) {
          forall i | 0 <= i < |s| ensures IsDigit(s[i]) {
            if i < |s| - 1 { assert s[i] == s[..|s| - 1][i]; }
          }
        }
      }
    }
  }

  /** `s` without its leading whitespace (`s.lstrip()`). */
  function TrimStart(s: string): string
  {
    if |s| > 0 && IsWhitespace(s[0]) then TrimStart(s[1..]) else s
  }

  /** `s` without its trailing whitespace (`s.rstrip()`). */
  function TrimEnd(s: string): string
  {
    if |s| > 0 && IsWhitespace(s[|s| - 1]) then TrimEnd(s[..|s| - 1]) else s
  }

  /** `s.strip()`. */
  function Trim(s: string): string
  {
    TrimEnd(TrimStart(s))
  }

  /** An optionally signed digit string. */
  function SignedValue(s: string): Option<int>
  {
    if |s| > 1 && (s[0] == '-' || s[0] == '+') then
      match DigitsValue(s[1..])
      case None => None
      case Some(v) => Some(if s[0] == '-' then -(v as int) else v)
    else DigitsValue(s)
  }

  /**
   * Python 3 `int(s)`: an optionally signed ASCII digit string, with any whitespace
   * around it ignored. Underscores between digits are refused, as before Python 3.6.
   */
  function ParseInt(s: string): Option<int>
  {
    SignedValue(Trim(s))
  }

  lemma {:induction false} TrimStartSkips(w: string, s: string)
    requires forall i :: 0 <= i < |w| ==> IsWhitespace(w[i])
    requires |s| > 0 && !IsWhitespace(s[0])
    ensures TrimStart(w + s) == s
  {
    if |w| > 0 {
      assert (w + s)[1..] == w[1..] + s;
      TrimStartSkips(w[1..], s);
    }
  }

  lemma {:induction false} TrimEndSkips(s: string, w: string)
    requires forall i :: 0 <= i < |w| ==> IsWhitespace(w[i])
    requires |s| > 0 && !IsWhitespace(s[|s| - 1])
    ensures TrimEnd(s + w) == s
  {
    if |w| > 0 {
      assert (s + w)[..|s + w| - 1] == s + w[..|w| - 1];
      TrimEndSkips(s, w[..|w| - 1]);
    } else {
      assert s + w == s;
    }
  }

  /** Whitespace around a number does not change what `int` makes of it. */
  lemma ParseIntIgnoresPadding(w1: string, s: string, w2: string)
    requires forall i :: 0 <= i < |w1| ==> IsWhitespace(w1[i])
    requires forall i :: 0 <= i < |w2| ==> IsWhitespace(w2[i])
    requires |s| > 0 && !IsWhitespace(s[0]) && !IsWhitespace(s[|s| - 1])
    ensures ParseInt(w1 + s + w2) == ParseInt(s)
  {
    assert w1 + s + w2 == w1 + (s + w2);
    TrimStartSkips(w1, s + w2);
    TrimEndSkips(s, w2);
    TrimStartSkips("", s);
    TrimEndSkips(s, "");
    assert "" + s == s && s + "" == s;
  }

  /** A printed number neither starts nor ends with whitespace, so `strip` keeps it whole. */
  lemma IntToStringUnpadded(i: int)
    ensures var s := IntToString(i);
      |s| > 0 && !IsWhitespace(s[0]) && !IsWhitespace(s[|s| - 1]) && Trim(s) == s
  {
    var s := IntToString(i);
    if i >= 0 { assert IsDigit(s[0]); }
    assert s[|s| - 1] == NatToString(if i < 0 then -i else i)[|s| - 1 - (if i < 0 then 1 else 0)];
    assert IsDigit(s[|s| - 1]);
  }

  lemma ParseIntOfIntToString(i: int)
    ensures ParseInt(IntToString(i)) == Some(i)
  {
    var s := IntToString(i);
    IntToStringUnpadded(i);
    if i < 0 {
      assert s[1..] == NatToString(-i);
      DigitsValueMeaning(s[1..]);
      NatValueOfNatToString(-i);
    } else {
      DigitsValueMeaning(s);
      NatValueOfNatToString(i);
      assert s[0] != '-' && s[0] != '+' by { assert IsDigit(s[0]); }
    }
  }
}
