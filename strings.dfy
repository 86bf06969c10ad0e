/**
 * The string operations the browser pages and the Python services rely on,
 * restricted to ASCII: character classes, JavaScript `/^\d+$/` and Python
 * `str.isdigit()`, `lower()`, substring tests (`in`, `includes`),
 * `split(sep)`, `split()`, `strip()`, `join` and decimal rendering of numbers.
 */
module Strings {

  predicate IsDigit(c: char) { '0' <= c <= '9' }

  predicate IsAsciiLetter(c: char) { 'a' <= c <= 'z' || 'A' <= c <= 'Z' }

  /** JavaScript's `\w`: an ASCII letter, a digit or the underscore. */
  predicate IsWordChar(c: char) { IsAsciiLetter(c) || IsDigit(c) || c == '_' }

  /** The ASCII characters Python's `str.split()` and `str.strip()` treat as whitespace. */
  predicate IsSpace(c: char) {
    c == ' ' || c == '\t' || c == '\n' || c == '\r' || c == '\U{0B}' || c == '\U{0C}'
    || c == '\U{1C}' || c == '\U{1D}' || c == '\U{1E}' || c == '\U{1F}'
  }

  predicate AllDigits(s: string) { forall i :: 0 <= i < |s| ==> IsDigit(s[i]) }

  /** JavaScript `/^\d+$/.test(s)` and Python `s.isdigit()`: non-empty, digits only. */
  predicate IsDigits(s: string) { |s| > 0 && AllDigits(s) }

  /** Python's `str.lower()` on ASCII text. */
  function LowerChar(c: char): char {
    if 'A' <= c <= 'Z' then (c as int + 32) as char else c
  }

  function Lower(s: string): (r: string)
    ensures |r| == |s|
    ensures forall i :: 0 <= i < |s| ==> r[i] == LowerChar(s[i])
  {
    seq(|s|, i requires 0 <= i < |s| => LowerChar(s[i]))
  }

  /** `needle` occurs in `hay` at position `i`. */
  predicate OccursAt(hay: string, needle: string, i: int) {
    0 <= i && i + |needle| <= |hay| && hay[i..i + |needle|] == needle
  }

  /** Python `needle in hay`, JavaScript `hay.includes(needle)`. */
  predicate Contains(hay: string, needle: string) {
    exists i :: 0 <= i <= |hay| - |needle| && OccursAt(hay, needle, i)
  }

  /** Python `sep.join(parts)`, JavaScript `parts.join(sep)`. */
  function Join(parts: seq<string>, sep: string): string
    decreases |parts|
  {
    if |parts| == 0 then ""
    else if |parts| == 1 then parts[0]
    else parts[0] + sep + Join(parts[1..], sep)
  }

  /** Python `s.split(sep)` for a one-character separator: never an empty list. */
  function Split(s: string, sep: char): (r: seq<string>)
    ensures |r| >= 1
    ensures forall k :: 0 <= k < |r| ==> sep !in r[k]
    decreases |s|
  {
    if |s| == 0 then [""]
    else
      var rest := Split(s[1..], sep);
      if s[0] == sep then [""] + rest
      else [[s[0]] + rest[0]] + rest[1..]
  }

  /** Only whitespace. */
  predicate AllSpace(g: string) { forall i :: 0 <= i < |g| ==> IsSpace(g[i]) }

  /** `r` stands at offset `i` of `s`, with only whitespace before and after it. */
  predicate Trimmed(s: string, r: string, i: int) {
    0 <= i && i + |r| <= |s| && s[i..i + |r|] == r && AllSpace(s[..i]) && AllSpace(s[i + |r|..])
  }

  /**
   * Python `s.strip()`: what is left of `s` once the whitespace around it is
   * dropped; the result neither starts nor ends with whitespace, so no more
   * could be dropped.
   */
  function Strip(s: string): (r: string)
    ensures exists i :: Trimmed(s, r, i)
    ensures r == [] || (!IsSpace(r[0]) && !IsSpace(r[|r| - 1]))
    decreases |s|
  {
    if |s| > 0 && IsSpace(s[0]) then
      var r := Strip(s[1..]);
      assert exists i :: Trimmed(s, r, i) by {
        var i :| Trimmed(s[1..], r, i);
        TrimmedFront(s, r, i);
      }
      r
    else if |s| > 0 && IsSpace(s[|s| - 1]) then
      var r := Strip(s[..|s| - 1]);
      assert exists i :: Trimmed(s, r, i) by {
        var i :| Trimmed(s[..|s| - 1], r, i);
        TrimmedBack(s, r, i);
      }
      r
    else
      assert Trimmed(s, s, 0) by {
        assert s[0..|s|] == s;
      }
      s
  }

  /** Whitespace in front of a trimmed text is more of what was dropped. */
  lemma TrimmedFront(s: string, r: string, i: int)
    requires |s| > 0 && IsSpace(s[0]) && Trimmed(s[1..], r, i)
    ensures Trimmed(s, r, i + 1)
  {
    assert s[i + 1..i + 1 + |r|] == s[1..][i..i + |r|];
    assert s[i + 1 + |r|..] == s[1..][i + |r|..];
    var lead := s[..i + 1];
    forall k | 0 <= k < |lead| ensures IsSpace(lead[k]) {
      if k > 0 {
        assert lead[k] == s[1..][..i][k - 1];
      }
    }
  }

  /** Whitespace after a trimmed text is more of what was dropped. */
  lemma TrimmedBack(s: string, r: string, i: int)
    requires |s| > 0 && IsSpace(s[|s| - 1]) && Trimmed(s[..|s| - 1], r, i)
    ensures Trimmed(s, r, i)
  {
    var init := s[..|s| - 1];
    assert s[i..i + |r|] == init[i..i + |r|];
    assert s[..i] == init[..i];
    assert s[i + |r|..] == init[i + |r|..] + [s[|s| - 1]];
  }

  /** Number of leading non-whitespace characters. */
  function WordLength(s: string): (n: nat)
    ensures n <= |s|
    ensures forall i :: 0 <= i < n ==> !IsSpace(s[i])
    ensures n < |s| ==> IsSpace(s[n])
    decreases |s|
  {
    if |s| == 0 || IsSpace(s[0]) then 0 else 1 + WordLength(s[1..])
  }

  /** A non-empty run of non-whitespace characters. */
  predicate IsWord(w: string) { |w| > 0 && forall i :: 0 <= i < |w| ==> !IsSpace(w[i]) }

  /** `gaps[0] + words[0] + gaps[1] + ... + words[n - 1] + gaps[n]`. */
  function Interleave(gaps: seq<string>, words: seq<string>): string
    requires |gaps| == |words| + 1
    decreases |words|
  {
    if words == [] then gaps[0] else gaps[0] + (words[0] + Interleave(gaps[1..], words[1..]))
  }

  /**
   * `s` is `words` laid out with whitespace runs `gaps` around them: a
   * non-empty run between two words, possibly empty ones at either end.
   */
  predicate SpacedBy(s: string, gaps: seq<string>, words: seq<string>) {
    && |gaps| == |words| + 1
    && (forall k :: 0 <= k < |gaps| ==> AllSpace(gaps[k]))
    && (forall k :: 0 < k < |words| ==> gaps[k] != [])
    && Interleave(gaps, words) == s
  }

  /** One more character in front of the first gap puts it in front of the whole layout. */
  lemma InterleaveFront(c: char, gaps: seq<string>, words: seq<string>)
    requires |gaps| == |words| + 1
    ensures Interleave([[c] + gaps[0]] + gaps[1..], words) == [c] + Interleave(gaps, words)
  {
    var g := [[c] + gaps[0]] + gaps[1..];
    assert g[1..] == gaps[1..];
    if words != [] {
      var tail := words[0] + Interleave(gaps[1..], words[1..]);
      assert ([c] + gaps[0]) + tail == [c] + (gaps[0] + tail);
    }
  }

  /**
   * Python `s.split()` with no argument: the maximal runs of non-whitespace,
   * in order; `s` is these words with whitespace between and around them.
   */
  function Words(s: string): (r: seq<string>)
    ensures forall k :: 0 <= k < |r| ==> IsWord(r[k])
    ensures exists gaps :: SpacedBy(s, gaps, r)
    ensures r == [] <==> forall i :: 0 <= i < |s| ==> IsSpace(s[i])
    decreases |s|
  {
    if |s| == 0 then
      assert SpacedBy(s, [""], []);
      []
    else if IsSpace(s[0]) then
      var r := Words(s[1..]);
      assert exists gaps :: SpacedBy(s, gaps, r) by {
        var gaps :| SpacedBy(s[1..], gaps, r);
        SpacedFront(s, gaps, r);
      }
      r
    else
      var n := WordLength(s);
      var rest := Words(s[n..]);
      assert exists gaps :: SpacedBy(s, gaps, [s[..n]] + rest) by {
        var gaps :| SpacedBy(s[n..], gaps, rest);
        SpacedWord(s, n, gaps, rest);
      }
      [s[..n]] + rest
  }

  /** Whitespace in front of a layout joins its first gap. */
  lemma SpacedFront(s: string, gaps: seq<string>, words: seq<string>)
    requires |s| > 0 && IsSpace(s[0]) && SpacedBy(s[1..], gaps, words)
    ensures SpacedBy(s, [[s[0]] + gaps[0]] + gaps[1..], words)
  {
    var g := [[s[0]] + gaps[0]] + gaps[1..];
    InterleaveFront(s[0], gaps, words);
    assert [s[0]] + s[1..] == s;
    forall i | 0 <= i < |g[0]| ensures IsSpace(g[0][i]) {
      if i > 0 {
        assert g[0][i] == gaps[0][i - 1];
      }
    }
    forall k | 0 < k < |g| ensures g[k] == gaps[k] { }
  }

  /**
   * A word in front of a layout that starts with whitespace (or is empty)
   * becomes its first word, after an empty gap.
   */
  lemma SpacedWord(s: string, n: nat, gaps: seq<string>, rest: seq<string>)
    requires 0 < n <= |s| && (forall i :: 0 <= i < n ==> !IsSpace(s[i])) && (n < |s| ==> IsSpace(s[n]))
    requires (forall k :: 0 <= k < |rest| ==> IsWord(rest[k])) && SpacedBy(s[n..], gaps, rest)
    ensures SpacedBy(s, [""] + gaps, [s[..n]] + rest)
  {
    var g, r := [""] + gaps, [s[..n]] + rest;
    assert g[1..] == gaps && r[1..] == rest;
    assert Interleave(g, r) == s[..n] + s[n..];
    if |rest| > 0 {
      assert s[n..] == gaps[0] + (rest[0] + Interleave(gaps[1..], rest[1..]));
      assert IsWord(rest[0]);
      assert IsSpace(s[n..][0]);
    }
  }

  function DigitChar(d: nat): char
    requires d < 10
  {
    ('0' as int + d) as char
  }

  /** The number a string of decimal digits stands for, read left to right. */
  function DigitsValue(s: string): nat
    requires AllDigits(s)
  {
    if s == [] then 0 else DigitsValue(s[..|s| - 1]) * 10 + (s[|s| - 1] as int - '0' as int)
  }

  /**
   * The decimal text of a number, as JavaScript's `${n}` writes it: digits
   * that stand for `n`, without a leading zero.
   */
  function NatToString(n: nat): (r: string)
    ensures IsDigits(r)
    ensures DigitsValue(r) == n
    ensures r[0] == '0' ==> |r| == 1
    ensures n < 10 <==> |r| == 1
  {
    if n < 10 then [DigitChar(n)]
    else
      var r := NatToString(n / 10) + [DigitChar(n % 10)];
      assert r[..|r| - 1] == NatToString(n / 10);
      r
  }

  /** A piece without the separator splits back to itself. */
  lemma {:induction false} SplitWithoutSeparator(s: string, sep: char)
    requires sep !in s
    ensures Split(s, sep) == [s]
    decreases |s|
  {
    if |s| > 0 {
      assert s[0] != sep;
      SplitWithoutSeparator(s[1..], sep);
      assert [s[0]] + s[1..] == s;
    }
  }

  /** Splitting `a + [sep] + b` with `sep` absent from `a` yields `a` then the pieces of `b`. */
  lemma {:induction false} SplitAtFirstSeparator(a: string, b: string, sep: char)
    requires sep !in a
    ensures Split(a + [sep] + b, sep) == [a] + Split(b, sep)
    decreases |a|
  {
    var s := a + [sep] + b;
    if |a| == 0 {
      assert s[1..] == b;
    } else {
      assert s[1..] == a[1..] + [sep] + b;
      SplitAtFirstSeparator(a[1..], b, sep);
      assert [a[0]] + a[1..] == a;
    }
  }

  /**
   * Python's `sep.join` and `split(sep)` are inverse on a non-empty list of
   * pieces that do not contain the separator.
   */
  lemma {:induction false} SplitJoin(parts: seq<string>, sep: char)
    requires |parts| >= 1
    requires forall k :: 0 <= k < |parts| ==> sep !in parts[k]
    ensures Split(Join(parts, [sep]), sep) == parts
    decreases |parts|
  {
    if |parts| == 1 {
      SplitWithoutSeparator(parts[0], sep);
    } else {
      SplitJoin(parts[1..], sep);
      SplitAtFirstSeparator(parts[0], Join(parts[1..], [sep]), sep);
      assert parts[0] + [sep] + Join(parts[1..], [sep]) == Join(parts, [sep]);
      assert [parts[0]] + parts[1..] == parts;
    }
  }

  /** `strip()` leaves a string without surrounding whitespace unchanged. */
  lemma StripClean(s: string)
    requires s == [] || (!IsSpace(s[0]) && !IsSpace(s[|s| - 1]))
    ensures Strip(s) == s
  {
  }

  /** An occurrence inside one side of `head + [sep] + tail` is an occurrence in the whole. */
  lemma ContainsSides(head: string, sep: char, tail: string, needle: string)
    ensures Contains(head, needle) ==> Contains(head + [sep] + tail, needle)
    ensures Contains(tail, needle) ==> Contains(head + [sep] + tail, needle)
  {
    var text := head + [sep] + tail;
    if Contains(head, needle) {
      var i :| 0 <= i <= |head| - |needle| && OccursAt(head, needle, i);
      assert text[i..i + |needle|] == head[i..i + |needle|];
      assert OccursAt(text, needle, i);
    }
    if Contains(tail, needle) {
      var j :| 0 <= j <= |tail| - |needle| && OccursAt(tail, needle, j);
      var i := j + |head| + 1;
      assert text[i..i + |needle|] == tail[j..j + |needle|];
      assert OccursAt(text, needle, i);
    }
  }

  /** Every position an occurrence covers holds a character of the needle. */
  lemma OccurrenceCovers(hay: string, needle: string, i: int, p: int)
    requires OccursAt(hay, needle, i) && i <= p < i + |needle|
    ensures hay[p] in needle
  {
    assert hay[p] == hay[i..i + |needle|][p - i];
  }

  /** A needle without the separator cannot straddle it: it occurs on one side. */
  lemma ContainsStraddle(head: string, sep: char, tail: string, needle: string)
    requires sep !in needle
    requires Contains(head + [sep] + tail, needle)
    ensures Contains(head, needle) || Contains(tail, needle)
  {
    var text := head + [sep] + tail;
    var i :| 0 <= i <= |text| - |needle| && OccursAt(text, needle, i);
    if i + |needle| <= |head| {
      assert text[i..i + |needle|] == head[i..i + |needle|];
      assert OccursAt(head, needle, i);
    } else if i > |head| {
      var j := i - |head| - 1;
      assert text[i..i + |needle|] == tail[j..j + |needle|];
      assert OccursAt(tail, needle, j);
    } else {
      OccurrenceCovers(text, needle, i, |head|);
      assert false;
    }
  }

  /**
   * A needle free of the separator occurs in the joined text exactly when it
   * occurs in one of the pieces.
   */
  lemma {:induction false} ContainsJoin(parts: seq<string>, sep: char, needle: string)
    requires |needle| > 0 && sep !in needle
    ensures Contains(Join(parts, [sep]), needle) <==> exists k :: 0 <= k < |parts| && Contains(parts[k], needle)
    decreases |parts|
  {
    if |parts| == 0 {
      assert !Contains("", needle);
    } else if |parts| > 1 {
      var head, tail := parts[0], Join(parts[1..], [sep]);
      assert head + [sep] + tail == Join(parts, [sep]);
      ContainsJoin(parts[1..], sep, needle);
      ContainsSides(head, sep, tail, needle);
      if Contains(head + [sep] + tail, needle) {
        ContainsStraddle(head, sep, tail, needle);
        if !Contains(head, needle) {
          var k :| 0 <= k < |parts[1..]| && Contains(parts[1..][k], needle);
          assert parts[k + 1] == parts[1..][k];
        }
      }
      if exists k :: 0 <= k < |parts| && Contains(parts[k], needle) {
        var k :| 0 <= k < |parts| && Contains(parts[k], needle);
        if k > 0 {
          assert parts[1..][k - 1] == parts[k];
        }
      }
    }
  }

  /** An occurrence in the middle piece is an occurrence in the whole. */
  lemma ContainsWithin(a: string, m: string, b: string, needle: string)
    requires Contains(m, needle)
    ensures Contains(a + m + b, needle)
  {
    var i :| 0 <= i <= |m| - |needle| && OccursAt(m, needle, i);
    var text := a + m + b;
    assert text[|a| + i..|a| + i + |needle|] == m[i..i + |needle|];
    assert OccursAt(text, needle, |a| + i);
  }

  /** Every piece occurs in the joined text. */
  lemma {:induction false} JoinHasPart(parts: seq<string>, sep: string, k: nat)
    requires k < |parts|
    ensures Contains(Join(parts, sep), parts[k])
    decreases |parts|
  {
    var text := Join(parts, sep);
    if k == 0 {
      assert text[..|parts[0]|] == parts[0];
      assert OccursAt(text, parts[0], 0);
    } else {
      JoinHasPart(parts[1..], sep, k - 1);
      ContainsWithin(parts[0] + sep, Join(parts[1..], sep), "", parts[k]);
      assert parts[0] + sep + Join(parts[1..], sep) + "" == text;
    }
  }
}
