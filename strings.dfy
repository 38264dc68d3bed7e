/**
 * The few Python `str` operations the integration relies on, over `seq<char>`.
 * Whitespace is Python's `str.isspace` set; case mapping covers ASCII letters only.
 */
module Strings {

  /** The characters Python's `str.isspace` accepts: the separators of `split()` and `strip()`. */
  const Whitespace: set<char> := {
    '\t', '\n', '\U{000B}', '\U{000C}', '\r', '\U{001C}', '\U{001D}', '\U{001E}', '\U{001F}', ' ',
    '\U{0085}', '\U{00A0}', '\U{1680}', '\U{2000}', '\U{2001}', '\U{2002}', '\U{2003}', '\U{2004}',
    '\U{2005}', '\U{2006}', '\U{2007}', '\U{2008}', '\U{2009}', '\U{200A}', '\U{2028}', '\U{2029}',
    '\U{202F}', '\U{205F}', '\U{3000}'
  }

  predicate IsSpace(c: char) {
    c in Whitespace
  }

  predicate StartsWith(s: string, prefix: string) {
    |prefix| <= |s| && s[..|prefix|] == prefix
  }

  predicate EndsWith(s: string, suffix: string) {
    |suffix| <= |s| && s[|s| - |suffix|..] == suffix
  }

  /** Python's `sub in s`. */
  predicate Contains(s: string, sub: string)
    decreases |s|
  {
    StartsWith(s, sub) || (s != [] && Contains(s[1..], sub))
  }

  lemma {:induction false} ContainsNeedsRoom(s: string, sub: string)
    requires |s| < |sub|
    ensures !Contains(s, sub)
    decreases |s|
  {
    if s != [] { ContainsNeedsRoom(s[1..], sub); }
  }

  /** Number of whitespace characters at the start of `s`. */
  function LeadingSpace(s: string): (n: nat)
    ensures n <= |s|
    ensures forall i :: 0 <= i < n ==> IsSpace(s[i])
    ensures n < |s| ==> !IsSpace(s[n])
  {
    if s != [] && IsSpace(s[0]) then 1 + LeadingSpace(s[1..]) else 0
  }

  /** `s.lstrip()`: drops the leading whitespace and nothing else. */
  function StripLeft(s: string): (r: string)
    ensures r == s[LeadingSpace(s)..]
  {
    if s != [] && IsSpace(s[0]) then StripLeft(s[1..]) else s
  }

  /** `s.rstrip()`: drops the trailing whitespace and nothing else. */
  function StripRight(s: string): (r: string)
    ensures |r| <= |s| && r == s[..|r|]
    ensures r != [] ==> !IsSpace(r[|r| - 1])
    ensures forall i :: |r| <= i < |s| ==> IsSpace(s[i])
  {
    if s != [] && IsSpace(s[|s| - 1]) then StripRight(s[..|s| - 1]) else s
  }

  /**
   * `s.strip()`: the slice of `s` that starts after its leading whitespace and ends before its
   * trailing whitespace; it neither starts nor ends with whitespace.
   */
  function Strip(s: string): (r: string)
    ensures LeadingSpace(s) + |r| <= |s| && r == s[LeadingSpace(s)..LeadingSpace(s) + |r|]
    ensures forall i :: LeadingSpace(s) + |r| <= i < |s| ==> IsSpace(s[i])
    ensures r != [] ==> !IsSpace(r[0]) && !IsSpace(r[|r| - 1])
    ensures r == [] <==> forall i :: 0 <= i < |s| ==> IsSpace(s[i])
  {
    var left := StripLeft(s);
    StripLeftEmpty(s);
    TrimmedSlice(s, LeadingSpace(s), left, StripRight(left));
    StripRight(left)
  }

  /** What is left after cutting `n` characters off the front and then trailing whitespace off the back. */
  lemma TrimmedSlice(s: string, n: nat, left: string, r: string)
    requires n <= |s| && left == s[n..] && |r| <= |left| && r == left[..|r|]
    requires forall j :: |r| <= j < |left| ==> IsSpace(left[j])
    requires left != [] ==> r != []
    ensures n + |r| <= |s| && r == s[n..n + |r|]
    ensures forall i :: n + |r| <= i < |s| ==> IsSpace(s[i])
    ensures r == [] <==> left == []
  {
    forall i | n + |r| <= i < |s|
      ensures IsSpace(s[i])
    {
      assert s[i] == left[i - n];
    }
  }

  /** `lstrip()` leaves nothing exactly when the text is all whitespace. */
  lemma {:induction false} StripLeftEmpty(s: string)
    ensures StripLeft(s) == [] <==> forall i :: 0 <= i < |s| ==> IsSpace(s[i])
    decreases |s|
  {
    if s != [] && IsSpace(s[0]) {
      StripLeftEmpty(s[1..]);
      assert forall i :: 1 <= i < |s| ==> s[i] == s[1..][i - 1];
    }
  }

  lemma {:induction false} LeadingSpaceOfPadded(pre: string, t: string)
    requires forall i :: 0 <= i < |pre| ==> IsSpace(pre[i])
    requires t != [] && !IsSpace(t[0])
    ensures LeadingSpace(pre + t) == |pre|
    decreases |pre|
  {
    if pre != [] {
      assert (pre + t)[1..] == pre[1..] + t;
      LeadingSpaceOfPadded(pre[1..], t);
    }
  }

  /** Whitespace around a text that neither starts nor ends with whitespace is exactly what `strip()` removes. */
  lemma StripPadded(pre: string, t: string, post: string)
    requires forall i :: 0 <= i < |pre| ==> IsSpace(pre[i])
    requires forall i :: 0 <= i < |post| ==> IsSpace(post[i])
    requires t != [] && !IsSpace(t[0]) && !IsSpace(t[|t| - 1])
    ensures Strip(pre + t + post) == t
  {
    var s := pre + t + post;
    assert s == pre + (t + post);
    LeadingSpaceOfPadded(pre, t + post);
    assert StripLeft(s) == t + post;
    StripRightOfPadded(t, post);
  }

  /** Trailing whitespace after a text that does not end with whitespace is exactly what `rstrip()` removes. */
  lemma {:induction false} StripRightOfPadded(t: string, post: string)
    requires forall i :: 0 <= i < |post| ==> IsSpace(post[i])
    requires t != [] && !IsSpace(t[|t| - 1])
    ensures StripRight(t + post) == t
    decreases |post|
  {
    if post == [] {
      assert t + post == t;
    } else {
      var init := post[..|post| - 1];
      assert (t + post)[..|t + post| - 1] == t + init;
      StripRightOfPadded(t, init);
    }
  }

  /** A text that neither starts nor ends with whitespace is left alone by `strip()`. */
  lemma StripOfUnpadded(t: string)
    requires t != [] && !IsSpace(t[0]) && !IsSpace(t[|t| - 1])
    ensures Strip(t) == t
  {
    assert StripLeft(t) == t;
    assert StripRight(t) == t;
  }

  /** Stripping twice is stripping once. */
  lemma StripIdempotent(s: string)
    ensures Strip(Strip(s)) == Strip(s)
  {
    var t := Strip(s);
    assert StripLeft(t) == t;
    assert StripRight(t) == t;
  }

  /** `s.split(sep)[0]`: everything before the first occurrence of `sep`, or all of `s`. */
  function FirstPiece(s: string, sep: string): (r: string)
    requires sep != []
    ensures |r| <= |s| && r == s[..|r|]
    ensures r == s || StartsWith(s[|r|..], sep)
    ensures !Contains(r, sep)
    decreases |s|
  {
    if |s| < |sep| then
      assert !Contains(s, sep) by { ContainsNeedsRoom(s, sep); }
      s
    else if s[..|sep|] == sep then ""
    else
      var rest := FirstPiece(s[1..], sep);
      var r := [s[0]] + rest;
      assert |sep| <= |r| ==> r[..|sep|] == s[..|sep|];
      assert r[1..] == rest;
      r
  }

  /** `s.split(sep)`: the pieces between the non-overlapping occurrences of `sep`, scanned left to right. */
  function SplitAll(s: string, sep: string): (pieces: seq<string>)
    requires sep != []
    ensures pieces != [] && pieces[0] == FirstPiece(s, sep)
    decreases |s|
  {
    if |s| < |sep| then [s]
    else if s[..|sep|] == sep then [""] + SplitAll(s[|sep|..], sep)
    else
      var rest := SplitAll(s[1..], sep);
      [[s[0]] + rest[0]] + rest[1..]
  }

  /** `"".join(parts)`. */
  function Concat(parts: seq<string>): string
    decreases |parts|
  {
    if parts == [] then "" else parts[0] + Concat(parts[1..])
  }

  lemma {:induction false} ConcatCons(x: string, rest: seq<string>)
    ensures Concat([x] + rest) == x + Concat(rest)
  {
    assert ([x] + rest)[1..] == rest;
  }

  /** Putting a character in front of the first piece puts it in front of the joined text. */
  lemma {:induction false} ConcatLed(c: char, parts: seq<string>)
    requires parts != []
    ensures Concat([[c] + parts[0]] + parts[1..]) == [c] + Concat(parts)
  {
    ConcatCons([c] + parts[0], parts[1..]);
    assert Concat(parts) == parts[0] + Concat(parts[1..]);
    assert ([c] + parts[0]) + Concat(parts[1..]) == [c] + (parts[0] + Concat(parts[1..]));
  }

  /**
   * `s.replace(pattern, "")`: every non-overlapping occurrence, scanned left to right, is dropped,
   * which is `"".join(s.split(pattern))`.
   */
  function RemoveAll(s: string, pattern: string): (r: string)
    requires pattern != []
    ensures r == Concat(SplitAll(s, pattern))
    ensures |r| <= |s|
    ensures !Contains(s, pattern) ==> r == s
    decreases |s|
  {
    if |s| < |pattern| then
      assert !Contains(s, pattern) by { ContainsNeedsRoom(s, pattern); }
      ConcatCons(s, []);
      s
    else if s[..|pattern|] == pattern then
      ConcatCons("", SplitAll(s[|pattern|..], pattern));
      RemoveAll(s[|pattern|..], pattern)
    else
      var tail := RemoveAll(s[1..], pattern);
      ConcatLed(s[0], SplitAll(s[1..], pattern));
      [s[0]] + tail
  }

  /** Length of the leading run of non-whitespace characters. */
  function RunLength(s: string): (n: nat)
    ensures n <= |s|
    ensures forall i :: 0 <= i < n ==> !IsSpace(s[i])
    ensures n < |s| ==> IsSpace(s[n])
  {
    if s == [] || IsSpace(s[0]) then 0 else 1 + RunLength(s[1..])
  }

  /** The non-whitespace characters of `s`, in order. */
  function NonSpace(s: string): string
    decreases |s|
  {
    if s == [] then "" else (if IsSpace(s[0]) then "" else [s[0]]) + NonSpace(s[1..])
  }

  lemma {:induction false} NonSpaceOfRun(s: string, n: nat)
    requires n <= |s| && forall i :: 0 <= i < n ==> !IsSpace(s[i])
    ensures NonSpace(s) == s[..n] + NonSpace(s[n..])
    decreases n
  {
    if n > 0 {
      NonSpaceOfRun(s[1..], n - 1);
      assert s[1..][n - 1..] == s[n..];
      assert s[..n] == [s[0]] + s[1..][..n - 1];
    }
  }

  /**
   * `s.split()`: the maximal runs of non-whitespace characters, in order. Together they hold exactly
   * the non-whitespace characters of `s`; the first is the leading run of `s` once its leading
   * whitespace is dropped, and the others are the words of what follows that run.
   */
  function Words(s: string): (ws: seq<string>)
    ensures forall k :: 0 <= k < |ws| ==> ws[k] != [] && forall i :: 0 <= i < |ws[k]| ==> !IsSpace(ws[k][i])
    ensures Concat(ws) == NonSpace(s)
    ensures ws == [] <==> forall i :: 0 <= i < |s| ==> IsSpace(s[i])
    ensures ws != [] ==> ws[0] == StripLeft(s)[..RunLength(StripLeft(s))]
    ensures ws != [] ==> ws[1..] == Words(StripLeft(s)[|ws[0]|..])
    decreases |s|
  {
    if s == [] then []
    else if IsSpace(s[0]) then
      var ws := Words(s[1..]);
      LeadingSpaceIsSkipped(s);
      ws
    else
      var n := RunLength(s);
      var rest := Words(s[n..]);
      RunThenWords(s, n, rest);
      assert StripLeft(s) == s;
      assert ([s[..n]] + rest)[1..] == rest;
      [s[..n]] + rest
  }

  /** A leading run followed by the words of the rest of the text are the words of the whole text. */
  lemma RunThenWords(s: string, n: nat, rest: seq<string>)
    requires s != [] && !IsSpace(s[0]) && n == RunLength(s)
    requires forall k :: 0 <= k < |rest| ==> rest[k] != [] && forall i :: 0 <= i < |rest[k]| ==> !IsSpace(rest[k][i])
    requires Concat(rest) == NonSpace(s[n..])
    ensures var ws := [s[..n]] + rest;
      && (forall k :: 0 <= k < |ws| ==> ws[k] != [] && forall i :: 0 <= i < |ws[k]| ==> !IsSpace(ws[k][i]))
      && Concat(ws) == NonSpace(s)
      && ws[0] == StripLeft(s)[..RunLength(StripLeft(s))]
  {
    NonSpaceOfRun(s, n);
    ConcatCons(s[..n], rest);
    var ws := [s[..n]] + rest;
    assert forall k :: 1 <= k < |ws| ==> ws[k] == rest[k - 1];
  }

  lemma LeadingSpaceIsSkipped(s: string)
    requires s != [] && IsSpace(s[0])
    ensures NonSpace(s) == NonSpace(s[1..]) && StripLeft(s) == StripLeft(s[1..])
    ensures (forall i :: 0 <= i < |s| ==> IsSpace(s[i])) <==> forall i :: 0 <= i < |s| - 1 ==> IsSpace(s[1..][i])
  {
    assert forall i :: 0 < i < |s| ==> s[i] == s[1..][i - 1];
  }

  function LowerChar(c: char): char {
    if 'A' <= c <= 'Z' then (c as int + 32) as char else c
  }

  function UpperChar(c: char): char {
    if 'a' <= c <= 'z' then (c as int - 32) as char else c
  }

  /** `s.lower()` on ASCII letters. */
  function Lower(s: string): string {
    seq(|s|, i requires 0 <= i < |s| => LowerChar(s[i]))
  }

  /** `s.upper()` on ASCII letters. */
  function Upper(s: string): string {
    seq(|s|, i requires 0 <= i < |s| => UpperChar(s[i]))
  }

  predicate IsLetter(c: char) {
    ('a' <= c <= 'z') || ('A' <= c <= 'Z')
  }

  /** `s.title()` on ASCII text: a letter is upper-cased after a non-letter or at the start, lower-cased after a letter. */
  function Title(s: string): (t: string)
    ensures |t| == |s|
  {
    seq(|s|, i requires 0 <= i < |s| => if i > 0 && IsLetter(s[i - 1]) then LowerChar(s[i]) else UpperChar(s[i]))
  }

  /** `title` of a lower-case word capitalises its first letter only. */
  lemma TitleOfLowerWord(s: string)
    requires s != [] && forall i :: 0 <= i < |s| ==> 'a' <= s[i] <= 'z'
    ensures Title(s) == [UpperChar(s[0])] + s[1..]
  {
    assert forall i :: 0 <= i < |s| ==> IsLetter(s[i]);
  }

  /** Python's `a < b` on strings: code-point lexicographic order, a proper prefix being smaller. */
  predicate LexLess(a: string, b: string)
    decreases |a|
  {
    if a == [] then b != []
    else if b == [] then false
    else if a[0] != b[0] then a[0] < b[0]
    else LexLess(a[1..], b[1..])
  }

  lemma {:induction false} LexLessIrreflexive(a: string)
    ensures !LexLess(a, a)
  {
    if a != [] { LexLessIrreflexive(a[1..]); }
  }

  lemma {:induction false} LexLessTransitive(a: string, b: string, c: string)
    requires LexLess(a, b) && LexLess(b, c)
    ensures LexLess(a, c)
    decreases |a|
  {
    if a != [] && b != [] && c != [] && a[0] == b[0] && b[0] == c[0] {
      LexLessTransitive(a[1..], b[1..], c[1..]);
    }
  }

  lemma {:induction false} LexLessTotal(a: string, b: string)
    ensures a == b || LexLess(a, b) || LexLess(b, a)
    decreases |a|
  {
    if a != [] && b != [] && a[0] == b[0] {
      LexLessTotal(a[1..], b[1..]);
      if a[1..] == b[1..] {
        assert a == [a[0]] + a[1..] && b == [b[0]] + b[1..];
      }
    }
  }
}
