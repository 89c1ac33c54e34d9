/**
 * The string operations the dashboard and the scraper rely on, over `seq<char>`:
 * ASCII case mapping, prefix and substring tests, first-occurrence replacement,
 * the character class JavaScript's `trim` removes, and the code-point order
 * that `Array.prototype.sort` and Python's `sorted` use on strings.
 */
module Text {
  import opened Wrappers

  predicate IsAsciiUpper(c: char) { 'A' <= c <= 'Z' }

  predicate IsAsciiLower(c: char) { 'a' <= c <= 'z' }

  function ToUpperChar(c: char): (r: char)
    ensures IsAsciiLower(c) ==> IsAsciiUpper(r)
    ensures !IsAsciiLower(c) ==> r == c
  {
    if IsAsciiLower(c) then (c as int - 32) as char else c
  }

  function ToLowerChar(c: char): (r: char)
    ensures IsAsciiUpper(c) ==> IsAsciiLower(r)
    ensures !IsAsciiUpper(c) ==> r == c
  {
    if IsAsciiUpper(c) then (c as int + 32) as char else c
  }

  /** `toLowerCase()` / `lower()`, restricted to the ASCII letters. */
  function ToLower(s: string): (r: string)
    ensures |r| == |s|
    ensures forall i :: 0 <= i < |s| ==> r[i] == ToLowerChar(s[i])
  {
    seq(|s|, i requires 0 <= i < |s| => ToLowerChar(s[i]))
  }

  predicate StartsWith(s: string, prefix: string) {
    |prefix| <= |s| && s[..|prefix|] == prefix
  }

  /** `t` occurs in `s` at position `i`. */
  predicate OccursAt(s: string, t: string, i: nat) {
    i + |t| <= |s| && s[i..i + |t|] == t
  }

  /** `s.includes(t)`. */
  predicate Contains(s: string, t: string) {
    exists i: nat | i <= |s| :: OccursAt(s, t, i)
  }

  lemma ContainsEmpty(s: string)
    ensures Contains(s, "")
  {
    assert OccursAt(s, "", 0);
  }

  /** A string containing `t + u` contains `t`. */
  lemma ContainsPrefix(s: string, t: string, u: string)
    requires Contains(s, t + u)
    ensures Contains(s, t)
  {
    var i: nat :| i <= |s| && OccursAt(s, t + u, i);
    assert s[i..i + |t|] == (t + u)[..|t|];
    assert OccursAt(s, t, i);
  }

  lemma ToLowerAppend(a: string, b: string)
    ensures ToLower(a + b) == ToLower(a) + ToLower(b)
  {
  }

  lemma ToLowerIdempotent(s: string)
    ensures ToLower(ToLower(s)) == ToLower(s)
  {
  }

  /** The first position at or after `k` where `t` occurs in `s` (`indexOf`). */
  function IndexFrom(s: string, t: string, k: nat): (r: Option<nat>)
    decreases |s| - k
    ensures r.Some? ==> k <= r.value && r.value + |t| <= |s|
  {
    if k + |t| > |s| then None
    else if OccursAt(s, t, k) then Some(k)
    else IndexFrom(s, t, k + 1)
  }

  lemma {:induction false} IndexFromSpec(s: string, t: string, k: nat)
    decreases |s| - k
    ensures var r := IndexFrom(s, t, k);
            && (r.Some? ==> k <= r.value && OccursAt(s, t, r.value) && forall j: nat :: k <= j < r.value ==> !OccursAt(s, t, j))
            && (r.None? ==> forall j: nat :: k <= j ==> !OccursAt(s, t, j))
  {
    if k + |t| <= |s| && !OccursAt(s, t, k) {
      IndexFromSpec(s, t, k + 1);
    }
  }

  /** `s.replace(pattern, replacement)` with a string pattern: only the first occurrence is replaced. */
  function ReplaceFirst(s: string, pattern: string, replacement: string): string {
    match IndexFrom(s, pattern, 0)
    case None => s
    case Some(i) => s[..i] + replacement + s[i + |pattern|..]
  }

  /** The first occurrence of `pattern`, at `i`, is replaced. */
  lemma ReplaceFirstAt(s: string, pattern: string, replacement: string, i: nat)
    requires OccursAt(s, pattern, i)
    requires forall j: nat :: j < i ==> !OccursAt(s, pattern, j)
    ensures ReplaceFirst(s, pattern, replacement) == s[..i] + replacement + s[i + |pattern|..]
  {
    IndexFromSpec(s, pattern, 0);
  }

  /** Without an occurrence of `pattern`, nothing changes. */
  lemma ReplaceFirstAbsent(s: string, pattern: string, replacement: string)
    requires forall j: nat :: !OccursAt(s, pattern, j)
    ensures ReplaceFirst(s, pattern, replacement) == s
  {
    IndexFromSpec(s, pattern, 0);
  }

  /** `s.replace(/([A-Z])/g, ' $1')`: a space goes in front of every ASCII capital. */
  function SpaceBeforeCapitals(s: string): (r: string)
    ensures |r| >= |s|
  {
    if |s| == 0 then ""
    else (if IsAsciiUpper(s[0]) then [' ', s[0]] else [s[0]]) + SpaceBeforeCapitals(s[1..])
  }

  lemma {:induction false} SpaceBeforeCapitalsAppend(a: string, b: string)
    ensures SpaceBeforeCapitals(a + b) == SpaceBeforeCapitals(a) + SpaceBeforeCapitals(b)
  {
    if |a| > 0 {
      assert (a + b)[1..] == a[1..] + b;
      SpaceBeforeCapitalsAppend(a[1..], b);
    } else {
      assert a + b == b;
    }
  }

  predicate NoCapitals(s: string) {
    forall i :: 0 <= i < |s| ==> !IsAsciiUpper(s[i])
  }

  /** A string with no ASCII capital is left as it is. */
  lemma {:induction false} SpaceBeforeCapitalsNoUpper(s: string)
    requires NoCapitals(s)
    ensures SpaceBeforeCapitals(s) == s
  {
    if |s| > 0 {
      SpaceBeforeCapitalsNoUpper(s[1..]);
    }
  }

  /** Drops the space in front of each ASCII capital: what `SpaceBeforeCapitals` inserted. */
  function Unspaced(r: string): string {
    if |r| == 0 then ""
    else if |r| >= 2 && r[0] == ' ' && IsAsciiUpper(r[1]) then [r[1]] + Unspaced(r[2..])
    else [r[0]] + Unspaced(r[1..])
  }

  /** The number of ASCII capitals in `s`. */
  function CapitalCount(s: string): nat {
    if |s| == 0 then 0 else (if IsAsciiUpper(s[0]) then 1 else 0) + CapitalCount(s[1..])
  }

  /**
   * `SpaceBeforeCapitals` keeps every character of `s` in order and adds exactly one space
   * per capital, right in front of it: dropping those spaces gives `s` back, and every
   * capital of the result follows a space.
   */
  lemma {:induction false} SpaceBeforeCapitalsSpec(s: string)
    ensures Unspaced(SpaceBeforeCapitals(s)) == s
    ensures |SpaceBeforeCapitals(s)| == |s| + CapitalCount(s)
    ensures forall i :: 0 <= i < |SpaceBeforeCapitals(s)| && IsAsciiUpper(SpaceBeforeCapitals(s)[i]) ==>
              i > 0 && SpaceBeforeCapitals(s)[i - 1] == ' '
    ensures |SpaceBeforeCapitals(s)| > 0 ==> !IsAsciiUpper(SpaceBeforeCapitals(s)[0])
  {
    if |s| > 0 {
      var tail := SpaceBeforeCapitals(s[1..]);
      SpaceBeforeCapitalsSpec(s[1..]);
      var r := SpaceBeforeCapitals(s);
      if IsAsciiUpper(s[0]) {
        assert r == [' ', s[0]] + tail;
        assert r[2..] == tail;
        forall i | 0 <= i < |r| && IsAsciiUpper(r[i]) ensures i > 0 && r[i - 1] == ' ' {
          if i >= 2 { assert r[i] == tail[i - 2]; if i > 2 { assert r[i - 1] == tail[i - 3]; } }
        }
      } else {
        assert r == [s[0]] + tail;
        assert r[1..] == tail;
        forall i | 0 <= i < |r| && IsAsciiUpper(r[i]) ensures i > 0 && r[i - 1] == ' ' {
          if i >= 2 { assert r[i] == tail[i - 1]; assert r[i - 1] == tail[i - 2]; }
        }
      }
    }
  }

  /** A camel-case word after the first: a capital followed by no capital. */
  predicate CapitalWord(w: string) {
    |w| > 0 && IsAsciiUpper(w[0]) && NoCapitals(w[1..])
  }

  /** The words written one after the other. */
  function Concat(words: seq<string>): string {
    if |words| == 0 then "" else Concat(words[..|words| - 1]) + words[|words| - 1]
  }

  /** The words, each preceded by a space. */
  function SpacedWords(words: seq<string>): string {
    if |words| == 0 then "" else SpacedWords(words[..|words| - 1]) + ([' '] + words[|words| - 1])
  }

  /** Camel-case words run together get their spaces back, one before each word. */
  lemma {:induction false} SpaceBeforeCapitalsWords(words: seq<string>)
    requires forall i :: 0 <= i < |words| ==> CapitalWord(words[i])
    ensures SpaceBeforeCapitals(Concat(words)) == SpacedWords(words)
  {
    if |words| > 0 {
      var init := words[..|words| - 1];
      var w := words[|words| - 1];
      SpaceBeforeCapitalsWords(init);
      SpaceBeforeCapitalsAppend(Concat(init), w);
      SpaceBeforeCapitalsNoUpper(w[1..]);
      assert SpaceBeforeCapitals(w) == [' ', w[0]] + w[1..];
      assert [' ', w[0]] + w[1..] == [' '] + w;
    }
  }

  /** The last character is kept: a space only ever goes in front of a character. */
  lemma SpaceBeforeCapitalsLast(s: string)
    requires |s| > 0
    ensures |SpaceBeforeCapitals(s)| > 0 && SpaceBeforeCapitals(s)[|SpaceBeforeCapitals(s)| - 1] == s[|s| - 1]
  {
    assert s == s[..|s| - 1] + [s[|s| - 1]];
    SpaceBeforeCapitalsAppend(s[..|s| - 1], [s[|s| - 1]]);
  }

  /** The characters `.` in a JavaScript regular expression does not match. */
  predicate IsLineTerminator(c: char) {
    c == '\n' || c == '\r' || c == '\U{2028}' || c == '\U{2029}'
  }

  /** `s.replace(/^./, c => c.toUpperCase())`. */
  function UpperFirst(s: string): (r: string)
    ensures |r| == |s|
    ensures |s| > 0 ==> r[1..] == s[1..]
    ensures |s| > 0 && !IsLineTerminator(s[0]) ==> r[0] == ToUpperChar(s[0])
    ensures |s| > 0 && IsLineTerminator(s[0]) ==> r == s
  {
    if |s| == 0 || IsLineTerminator(s[0]) then s else [ToUpperChar(s[0])] + s[1..]
  }

  lemma UpperFirstCons(c: char, s: string)
    requires !IsLineTerminator(c)
    ensures UpperFirst([c] + s) == [ToUpperChar(c)] + s
  {
    assert ([c] + s)[1..] == s;
  }

  /** The white space and line terminators that `String.prototype.trim` strips. */
  predicate IsJsWhitespace(c: char) {
    || c == '\t' || c == '\n' || c == '\U{000B}' || c == '\U{000C}' || c == '\r' || c == ' '
    || c == '\U{00A0}' || c == '\U{1680}' || ('\U{2000}' <= c <= '\U{200A}')
    || c == '\U{2028}' || c == '\U{2029}' || c == '\U{202F}' || c == '\U{205F}' || c == '\U{3000}'
    || c == '\U{FEFF}'
  }

  predicate AllWhitespace(s: string) {
    forall i :: 0 <= i < |s| ==> IsJsWhitespace(s[i])
  }

  function TrimStart(s: string): string {
    if |s| > 0 && IsJsWhitespace(s[0]) then TrimStart(s[1..]) else s
  }

  function TrimEnd(s: string): string {
    if |s| > 0 && IsJsWhitespace(s[|s| - 1]) then TrimEnd(s[..|s| - 1]) else s
  }

  /** `s.trim()`. */
  function Trim(s: string): string {
    TrimEnd(TrimStart(s))
  }

  lemma AllWhitespaceCons(c: char, t: string)
    requires IsJsWhitespace(c) && AllWhitespace(t)
    ensures AllWhitespace([c] + t)
  {
    assert forall i :: 0 < i < |t| + 1 ==> ([c] + t)[i] == t[i - 1];
  }

  lemma {:induction false} TrimStartSpec(s: string)
    ensures exists k :: 0 <= k <= |s| && TrimStart(s) == s[k..] && AllWhitespace(s[..k])
    ensures |TrimStart(s)| > 0 ==> !IsJsWhitespace(TrimStart(s)[0])
  {
    if |s| > 0 && IsJsWhitespace(s[0]) {
      TrimStartSpec(s[1..]);
      var k :| 0 <= k <= |s[1..]| && TrimStart(s[1..]) == s[1..][k..] && AllWhitespace(s[1..][..k]);
      assert s[1..][k..] == s[k + 1..];
      assert s[..k + 1] == [s[0]] + s[1..][..k];
      AllWhitespaceCons(s[0], s[1..][..k]);
    } else {
      assert s == s[0..] && AllWhitespace(s[..0]);
    }
  }

  lemma {:induction false} TrimEndSpec(s: string)
    ensures exists k :: 0 <= k <= |s| && TrimEnd(s) == s[..k] && AllWhitespace(s[k..])
    ensures |TrimEnd(s)| > 0 ==> !IsJsWhitespace(TrimEnd(s)[|TrimEnd(s)| - 1])
  {
    if |s| > 0 && IsJsWhitespace(s[|s| - 1]) {
      var init := s[..|s| - 1];
      TrimEndSpec(init);
      var k :| 0 <= k <= |init| && TrimEnd(init) == init[..k] && AllWhitespace(init[k..]);
      assert TrimEnd(s) == TrimEnd(init);
      assert init[..k] == s[..k];
      assert s[k..] == init[k..] + [s[|s| - 1]];
      assert AllWhitespace(s[k..]);
    } else {
      assert s == s[..|s|] && AllWhitespace(s[|s|..]);
    }
  }

  /** `s` is white space, then `s.trim()`, then white space. */
  lemma TrimSpec(s: string)
    ensures exists i, j :: 0 <= i <= j <= |s| && Trim(s) == s[i..j] && AllWhitespace(s[..i]) && AllWhitespace(s[j..])
  {
    var t := TrimStart(s);
    TrimStartSpec(s);
    TrimEndSpec(t);
    var i :| 0 <= i <= |s| && t == s[i..] && AllWhitespace(s[..i]);
    var k :| 0 <= k <= |t| && TrimEnd(t) == t[..k] && AllWhitespace(t[k..]);
    TrimPieces(s, t, TrimEnd(t), i, k);
  }

  /** `s.trim()` neither starts nor ends with white space. */
  lemma TrimEdges(s: string)
    ensures |Trim(s)| > 0 ==> !IsJsWhitespace(Trim(s)[0]) && !IsJsWhitespace(Trim(s)[|Trim(s)| - 1])
  {
    TrimStartSpec(s);
    TrimEndSpec(TrimStart(s));
    TrimEndHead(TrimStart(s));
  }

  lemma {:induction false} TrimEndHead(t: string)
    ensures |TrimEnd(t)| > 0 ==> TrimEnd(t)[0] == t[0]
  {
    if |t| > 0 && IsJsWhitespace(t[|t| - 1]) {
      TrimEndHead(t[..|t| - 1]);
    }
  }

  lemma TrimPieces(s: string, t: string, r: string, i: nat, k: nat)
    requires i <= |s| && t == s[i..] && AllWhitespace(s[..i])
    requires k <= |t| && r == t[..k] && AllWhitespace(t[k..])
    ensures exists i, j :: 0 <= i <= j <= |s| && r == s[i..j] && AllWhitespace(s[..i]) && AllWhitespace(s[j..])
  {
    assert r == s[i..i + k];
    assert t[k..] == s[i + k..];
  }

  /** Strict lexicographic order on code points: JavaScript's default `sort` and Python's `sorted` on strings of the Basic Multilingual Plane. */
  predicate Less(a: string, b: string) {
    if |a| == 0 then |b| > 0
    else if |b| == 0 then false
    else if a[0] != b[0] then a[0] < b[0]
    else Less(a[1..], b[1..])
  }

  lemma LessIrreflexive(a: string)
    ensures !Less(a, a)
  {
    if |a| > 0 { LessIrreflexive(a[1..]); }
  }

  lemma LessTransitive(a: string, b: string, c: string)
    requires Less(a, b) && Less(b, c)
    ensures Less(a, c)
  {
    if |a| > 0 && |b| > 0 && |c| > 0 && a[0] == b[0] && b[0] == c[0] {
      LessTransitive(a[1..], b[1..], c[1..]);
    }
  }

  lemma LessTotal(a: string, b: string)
    requires a != b
    ensures Less(a, b) || Less(b, a)
  {
    if |a| > 0 && |b| > 0 && a[0] == b[0] {
      assert a == [a[0]] + a[1..] && b == [b[0]] + b[1..];
      LessTotal(a[1..], b[1..]);
    }
  }

  lemma LessAsymmetric(a: string, b: string)
    requires Less(a, b)
    ensures !Less(b, a)
  {
    if Less(b, a) {
      LessTransitive(a, b, a);
      LessIrreflexive(a);
    }
  }

  function Digit(d: nat): (c: char)
    requires d < 10
    ensures '0' <= c <= '9'
  {
    ('0' as int + d) as char
  }

  /** `str(n)` for a natural number: its decimal digits, without leading zeros. */
  function NatToString(n: nat): (r: string)
    ensures |r| > 0
    ensures forall i :: 0 <= i < |r| ==> '0' <= r[i] <= '9'
  {
    if n < 10 then [Digit(n)] else NatToString(n / 10) + [Digit(n % 10)]
  }
}
