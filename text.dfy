/**
 * The parts of java.lang.String that the batch processor relies on, over
 * `string` (a sequence of `char`, standing for Java's UTF-16 code units):
 * `trim`, `split` with the pattern `\s*,\s*`, `String.join`, `startsWith`,
 * `endsWith`, `toLowerCase`, decimal conversion of an `int`, and the
 * ordering of `compareTo`.
 */
module Text {

  /** A character that `String.trim()` removes: every code point up to U+0020. */
  predicate IsTrimmable(c: char) {
    c <= ' '
  }

  /** The regular-expression class `\s`: space, tab, newline, vertical tab, form feed, carriage return. */
  predicate IsSpace(c: char) {
    c == ' ' || c == '\t' || c == '\n' || c == '\U{B}' || c == '\U{C}' || c == '\r'
  }

  /** `s` without its longest prefix of characters satisfying `drop`. */
  function DropLeading(s: string, drop: char -> bool): (r: string)
    ensures |r| <= |s| && r == s[|s| - |r|..]
    ensures r == [] || !drop(r[0])
    ensures forall k :: 0 <= k < |s| - |r| ==> drop(s[k])
  {
    if s == [] || !drop(s[0]) then s else DropLeading(s[1..], drop)
  }

  /** `s` without its longest suffix of characters satisfying `drop`. */
  function DropTrailing(s: string, drop: char -> bool): (r: string)
    ensures |r| <= |s| && r == s[..|r|]
    ensures r == [] || !drop(r[|r| - 1])
    ensures forall k :: |r| <= k < |s| ==> drop(s[k])
  {
    if s == [] || !drop(s[|s| - 1]) then s else DropTrailing(s[..|s| - 1], drop)
  }

  /** `s` without its longest prefix and then its longest suffix of characters satisfying `drop`. */
  function DropEnds(s: string, drop: char -> bool): (r: string)
    ensures r == [] || (!drop(r[0]) && !drop(r[|r| - 1]))
    ensures |s| > 0 && !drop(s[0]) && !drop(s[|s| - 1]) ==> r == s
  {
    var front := DropLeading(s, drop);
    var r := DropTrailing(front, drop);
    assert r != [] ==> r[0] == front[0];
    assert |s| > 0 && !drop(s[0]) ==> front == s;
    r
  }

  /** Java's `String.trim()`: the blank characters at both ends removed. */
  function Trim(s: string): (r: string)
    ensures r == [] || (!IsTrimmable(r[0]) && !IsTrimmable(r[|r| - 1]))
    ensures |s| > 0 && !IsTrimmable(s[0]) && !IsTrimmable(s[|s| - 1]) ==> r == s
  {
    DropEnds(s, IsTrimmable)
  }

  /** The `\s*` on both sides of a separator: the spaces at both ends of `s` removed. */
  function StripSpaces(s: string): (r: string)
    ensures r == [] || (!IsSpace(r[0]) && !IsSpace(r[|r| - 1]))
    ensures |s| > 0 && !IsSpace(s[0]) && !IsSpace(s[|s| - 1]) ==> r == s
  {
    DropEnds(s, IsSpace)
  }

  /** `s` cut at every comma: one piece more than there are commas, none holding a comma. */
  function Pieces(s: string): (r: seq<string>)
    ensures |r| >= 1
    ensures forall k :: 0 <= k < |r| ==> ',' !in r[k]
    decreases |s|
  {
    if s == [] then [[]]
    else
      var rest := Pieces(s[1..]);
      if s[0] == ',' then [[]] + rest
      else
        assert ',' !in [s[0]] + rest[0];
        [[s[0]] + rest[0]] + rest[1..]
  }

  /** `parts` with its trailing empty strings removed, as `split` does with a limit of zero. */
  function DropTrailingEmpty(parts: seq<string>): (r: seq<string>)
    ensures |r| <= |parts| && r == parts[..|r|]
    ensures r == [] || r[|r| - 1] != []
    ensures forall k :: |r| <= k < |parts| ==> parts[k] == []
  {
    if parts == [] || parts[|parts| - 1] != [] then parts
    else
      var r := DropTrailingEmpty(parts[..|parts| - 1]);
      assert parts[..|parts| - 1][..|r|] == parts[..|r|];
      r
  }

  /** Every piece with the spaces at both ends removed; a piece without a comma gives a stripped piece without one. */
  function StripAll(pieces: seq<string>): (r: seq<string>)
    ensures |r| == |pieces|
    ensures forall k :: 0 <= k < |r| ==> r[k] == StripSpaces(pieces[k])
    ensures forall k :: 0 <= k < |r| && ',' !in pieces[k] ==> ',' !in r[k]
  {
    if pieces == [] then [] else [StripSpaces(pieces[0])] + StripAll(pieces[1..])
  }

  /**
   * `s.trim().split("\\s*,\\s*")`. The pattern matches a comma together with
   * the spaces around it, so the tokens are the comma-separated pieces of the
   * trimmed text with their surrounding spaces removed; trailing empty tokens
   * are dropped, and a text without any comma comes back whole (even when it
   * is empty), as `Pattern.split` does when the pattern never matches.
   */
  function SplitCommaList(s: string): (r: seq<string>)
    ensures forall k :: 0 <= k < |r| ==> ',' !in r[k]
    ensures ',' !in Trim(s) ==> r == [Trim(s)]
    ensures ',' in Trim(s) && |r| > 0 ==> r[|r| - 1] != []
  {
    var t := Trim(s);
    if ',' !in t then [t]
    else
      CommaTokensHaveNoComma(t);
      CommaTokens(t)
  }

  /** The tokens of a text cut at its commas: each piece stripped of spaces, trailing empty ones dropped. */
  function CommaTokens(t: string): seq<string> {
    DropTrailingEmpty(StripAll(Pieces(t)))
  }

  /** No token holds a comma. */
  lemma CommaTokensHaveNoComma(t: string)
    ensures forall k :: 0 <= k < |CommaTokens(t)| ==> ',' !in CommaTokens(t)[k]
  {
    var stripped := StripAll(Pieces(t));
    assert forall k :: 0 <= k < |stripped| ==> ',' !in stripped[k];
    PrefixKeepsNoComma(stripped, DropTrailingEmpty(stripped));
  }

  /** A prefix of a list of comma-free strings is comma-free. */
  lemma PrefixKeepsNoComma(parts: seq<string>, r: seq<string>)
    requires forall k :: 0 <= k < |parts| ==> ',' !in parts[k]
    requires |r| <= |parts| && r == parts[..|r|]
    ensures forall k :: 0 <= k < |r| ==> ',' !in r[k]
  {
    forall k | 0 <= k < |r| ensures ',' !in r[k] {
      assert r[k] == parts[k];
    }
  }

  /** Java's `String.join(sep, parts)`. */
  function Join(parts: seq<string>, sep: string): string {
    if parts == [] then []
    else if |parts| == 1 then parts[0]
    else parts[0] + sep + Join(parts[1..], sep)
  }

  /** A style token as a widget-style string lists it: non-empty, no comma, no blank character at either end. */
  predicate IsToken(t: string) {
    |t| > 0 && ',' !in t && !IsTrimmable(t[0]) && !IsTrimmable(t[|t| - 1])
  }

  lemma {:induction false} PiecesWithoutComma(s: string)
    requires ',' !in s
    ensures Pieces(s) == [s]
    decreases |s|
  {
    if s != [] {
      PiecesWithoutComma(s[1..]);
      assert [s[0]] + s[1..] == s;
    }
  }

  lemma {:induction false} PiecesAtFirstComma(a: string, b: string)
    requires ',' !in a
    ensures Pieces(a + "," + b) == [a] + Pieces(b)
    decreases |a|
  {
    var s := a + "," + b;
    if a == [] {
      assert s[1..] == b;
    } else {
      assert s[1..] == a[1..] + "," + b;
      PiecesAtFirstComma(a[1..], b);
      assert [a[0]] + a[1..] == a;
    }
  }

  /** Cutting a comma-joined list at its commas gives the list back, whatever the items hold besides commas. */
  lemma {:induction false} PiecesOfJoin(parts: seq<string>)
    requires |parts| >= 1
    requires forall k :: 0 <= k < |parts| ==> ',' !in parts[k]
    ensures Pieces(Join(parts, ",")) == parts
  {
    if |parts| == 1 {
      PiecesWithoutComma(parts[0]);
    } else {
      PiecesOfJoin(parts[1..]);
      PiecesAtFirstComma(parts[0], Join(parts[1..], ","));
      assert [parts[0]] + parts[1..] == parts;
    }
  }

  /** Every character of `s` satisfies `drop`. */
  predicate AllOf(s: string, drop: char -> bool) {
    forall k :: 0 <= k < |s| ==> drop(s[k])
  }

  /** Characters that all satisfy `drop` in front of `x` are all dropped. */
  lemma {:induction false} DropLeadingPrefix(a: string, x: string, drop: char -> bool)
    requires AllOf(a, drop)
    ensures DropLeading(a + x, drop) == DropLeading(x, drop)
    decreases |a|
  {
    if a != [] {
      assert (a + x)[0] == a[0] && drop(a[0]);
      assert (a + x)[1..] == a[1..] + x;
      DropLeadingPrefix(a[1..], x, drop);
    } else {
      assert a + x == x;
    }
  }

  /** Characters that all satisfy `drop` after `x` are all dropped. */
  lemma {:induction false} DropTrailingSuffix(x: string, b: string, drop: char -> bool)
    requires AllOf(b, drop)
    ensures DropTrailing(x + b, drop) == DropTrailing(x, drop)
    decreases |b|
  {
    if b != [] {
      assert (x + b)[|x + b| - 1] == b[|b| - 1] && drop(b[|b| - 1]);
      assert (x + b)[..|x + b| - 1] == x + b[..|b| - 1];
      DropTrailingSuffix(x, b[..|b| - 1], drop);
    } else {
      assert x + b == x;
    }
  }

  /** Dropping at both ends removes exactly the padding around a text whose own ends are kept. */
  lemma DropEndsPadded(a: string, m: string, b: string, drop: char -> bool)
    requires AllOf(a, drop) && AllOf(b, drop)
    requires |m| > 0 && !drop(m[0]) && !drop(m[|m| - 1])
    ensures DropEnds(a + m + b, drop) == m
  {
    assert a + m + b == a + (m + b);
    DropLeadingPrefix(a, m + b, drop);
    assert (m + b)[0] == m[0];
    assert DropLeading(m + b, drop) == m + b;
    DropTrailingSuffix(m, b, drop);
  }

  /** A `\s` character is one that `trim` removes, and no comma is one. */
  lemma SpaceIsTrimmable(c: char)
    ensures IsSpace(c) ==> IsTrimmable(c) && c != ','
  {
  }

  /** A token with spaces around it strips to the token. */
  lemma TokenStrips(a: string, t: string, b: string)
    requires AllOf(a, IsSpace) && AllOf(b, IsSpace) && IsToken(t)
    ensures StripSpaces(a + t + b) == t
  {
    SpaceIsTrimmable(t[0]);
    SpaceIsTrimmable(t[|t| - 1]);
    DropEndsPadded(a, t, b, IsSpace);
  }

  /** A text of `\s` characters holds no comma. */
  lemma NoCommaInSpaces(s: string)
    requires AllOf(s, IsSpace)
    ensures ',' !in s
  {
    forall k | 0 <= k < |s| ensures s[k] != ',' {
      SpaceIsTrimmable(s[k]);
    }
  }

  /** What the pattern `\s*,\s*` matches between two tokens: spaces, a comma, spaces. */
  datatype Separator = Separator(before: string, after: string)

  predicate IsSeparator(g: Separator) {
    AllOf(g.before, IsSpace) && AllOf(g.after, IsSpace)
  }

  /** Tokens with a separator between each two of them, as a widget style may write them. */
  predicate WellSeparated(tokens: seq<string>, seps: seq<Separator>) {
    |tokens| >= 1 && |seps| == |tokens| - 1
    && (forall k :: 0 <= k < |tokens| ==> IsToken(tokens[k]))
    && (forall k :: 0 <= k < |seps| ==> IsSeparator(seps[k]))
  }

  /** `tokens` written out with `seps[k]` between `tokens[k]` and `tokens[k + 1]`. */
  function JoinSeparated(tokens: seq<string>, seps: seq<Separator>): string
    requires |tokens| >= 1 && |seps| == |tokens| - 1
    decreases |tokens|
  {
    if |tokens| == 1 then tokens[0]
    else tokens[0] + seps[0].before + "," + seps[0].after + JoinSeparated(tokens[1..], seps[1..])
  }

  /** The pieces between the commas of `lead + JoinSeparated(tokens, seps)`, spaces included. */
  function PaddedPieces(lead: string, tokens: seq<string>, seps: seq<Separator>): (r: seq<string>)
    requires |tokens| >= 1 && |seps| == |tokens| - 1
    ensures |r| == |tokens|
    decreases |tokens|
  {
    if |tokens| == 1 then [lead + tokens[0]]
    else [lead + tokens[0] + seps[0].before] + PaddedPieces(seps[0].after, tokens[1..], seps[1..])
  }

  lemma WellSeparatedTail(tokens: seq<string>, seps: seq<Separator>)
    requires WellSeparated(tokens, seps) && |tokens| >= 2
    ensures WellSeparated(tokens[1..], seps[1..]) && IsToken(tokens[0]) && IsSeparator(seps[0])
  {
    assert forall k :: 0 <= k < |tokens| - 1 ==> tokens[1..][k] == tokens[k + 1];
    assert forall k :: 0 <= k < |seps| - 1 ==> seps[1..][k] == seps[k + 1];
  }

  lemma {:induction false} PiecesOfSeparated(lead: string, tokens: seq<string>, seps: seq<Separator>)
    requires WellSeparated(tokens, seps) && AllOf(lead, IsSpace)
    ensures Pieces(lead + JoinSeparated(tokens, seps)) == PaddedPieces(lead, tokens, seps)
    decreases |tokens|
  {
    NoCommaInSpaces(lead);
    assert IsToken(tokens[0]);
    if |tokens| == 1 {
      PiecesWithoutComma(lead + tokens[0]);
    } else {
      WellSeparatedTail(tokens, seps);
      var g := seps[0];
      var a := lead + tokens[0] + g.before;
      var rest := JoinSeparated(tokens[1..], seps[1..]);
      NoCommaInSpaces(g.before);
      assert lead + JoinSeparated(tokens, seps) == a + "," + (g.after + rest);
      PiecesAtFirstComma(a, g.after + rest);
      PiecesOfSeparated(g.after, tokens[1..], seps[1..]);
    }
  }

  lemma {:induction false} StripPaddedPieces(lead: string, tokens: seq<string>, seps: seq<Separator>)
    requires WellSeparated(tokens, seps) && AllOf(lead, IsSpace)
    ensures StripAll(PaddedPieces(lead, tokens, seps)) == tokens
    decreases |tokens|
  {
    assert IsToken(tokens[0]);
    if |tokens| == 1 {
      var empty: string := [];
      var q := lead + tokens[0];
      assert AllOf(empty, IsSpace);
      TokenStrips(lead, tokens[0], empty);
      assert q + empty == q;
      StripAllCons(q, []);
      assert [q] + [] == [q];
    } else {
      WellSeparatedTail(tokens, seps);
      TokenStrips(lead, tokens[0], seps[0].before);
      StripPaddedPieces(seps[0].after, tokens[1..], seps[1..]);
      StripAllCons(lead + tokens[0] + seps[0].before, PaddedPieces(seps[0].after, tokens[1..], seps[1..]));
      assert tokens == [tokens[0]] + tokens[1..];
    }
  }

  lemma StripAllCons(x: string, rest: seq<string>)
    ensures StripAll([x] + rest) == [StripSpaces(x)] + StripAll(rest)
  {
    assert ([x] + rest)[1..] == rest;
  }

  lemma {:induction false} JoinSeparatedEnds(tokens: seq<string>, seps: seq<Separator>)
    requires WellSeparated(tokens, seps)
    ensures var j := JoinSeparated(tokens, seps);
      |j| > 0 && j[0] == tokens[0][0] && j[|j| - 1] == tokens[|tokens| - 1][|tokens[|tokens| - 1]| - 1]
      && (|tokens| >= 2 ==> ',' in j)
    decreases |tokens|
  {
    assert IsToken(tokens[0]);
    if |tokens| >= 2 {
      WellSeparatedTail(tokens, seps);
      JoinSeparatedEnds(tokens[1..], seps[1..]);
      var j := JoinSeparated(tokens, seps);
      assert j[|tokens[0]| + |seps[0].before|] == ',';
    }
  }

  /**
   * Splitting a style that lists tokens with `\s*,\s*` between them, and
   * blanks at either end, gives exactly those tokens back: the tokenisation
   * treats whole tokens, nothing less, wherever the spaces stand.
   */
  lemma SplitSeparatedRoundTrip(lead: string, tokens: seq<string>, seps: seq<Separator>, trail: string)
    requires WellSeparated(tokens, seps)
    requires AllOf(lead, IsTrimmable) && AllOf(trail, IsTrimmable)
    ensures SplitCommaList(lead + JoinSeparated(tokens, seps) + trail) == tokens
  {
    var m := JoinSeparated(tokens, seps);
    TrimSeparated(lead, tokens, seps, trail);
    if |tokens| >= 2 {
      CommaTokensSeparated(tokens, seps);
    }
  }

  /** `trim` removes exactly the blanks around separated tokens, and a comma is left exactly when there are two tokens or more. */
  lemma TrimSeparated(lead: string, tokens: seq<string>, seps: seq<Separator>, trail: string)
    requires WellSeparated(tokens, seps)
    requires AllOf(lead, IsTrimmable) && AllOf(trail, IsTrimmable)
    ensures Trim(lead + JoinSeparated(tokens, seps) + trail) == JoinSeparated(tokens, seps)
    ensures |tokens| >= 2 <==> ',' in JoinSeparated(tokens, seps)
    ensures |tokens| == 1 ==> JoinSeparated(tokens, seps) == tokens[0]
  {
    var m := JoinSeparated(tokens, seps);
    JoinSeparatedEnds(tokens, seps);
    assert IsToken(tokens[|tokens| - 1]);
    DropEndsPadded(lead, m, trail, IsTrimmable);
  }

  /** The comma-separated tokens of separated tokens are those tokens. */
  lemma CommaTokensSeparated(tokens: seq<string>, seps: seq<Separator>)
    requires WellSeparated(tokens, seps)
    ensures CommaTokens(JoinSeparated(tokens, seps)) == tokens
  {
    var m := JoinSeparated(tokens, seps);
    assert [] + m == m;
    assert AllOf([], IsSpace);
    PiecesOfSeparated([], tokens, seps);
    StripPaddedPieces([], tokens, seps);
    assert IsToken(tokens[|tokens| - 1]);
  }

  /** `n` separators that are a bare comma. */
  function BareSeparators(n: nat): (r: seq<Separator>)
    ensures |r| == n && forall k :: 0 <= k < n ==> r[k] == Separator([], []) && IsSeparator(r[k])
  {
    seq(n, k => Separator([], []))
  }

  lemma {:induction false} BareJoin(tokens: seq<string>)
    requires |tokens| >= 1
    ensures JoinSeparated(tokens, BareSeparators(|tokens| - 1)) == Join(tokens, ",")
    decreases |tokens|
  {
    if |tokens| >= 2 {
      BareJoin(tokens[1..]);
      assert BareSeparators(|tokens| - 1)[1..] == BareSeparators(|tokens| - 2);
    }
  }

  /**
   * Splitting a style written as tokens joined with a bare comma gives
   * exactly those tokens back.
   */
  lemma SplitJoinRoundTrip(tokens: seq<string>)
    requires |tokens| >= 1
    requires forall k :: 0 <= k < |tokens| ==> IsToken(tokens[k])
    ensures SplitCommaList(Join(tokens, ",")) == tokens
  {
    var seps := BareSeparators(|tokens| - 1);
    var empty: string := [];
    assert WellSeparated(tokens, seps);
    assert AllOf(empty, IsTrimmable);
    SplitSeparatedRoundTrip(empty, tokens, seps, empty);
    BareJoin(tokens);
    assert empty + JoinSeparated(tokens, seps) + empty == Join(tokens, ",");
  }

  /** Java's `s.startsWith(prefix)`. */
  predicate StartsWith(s: string, prefix: string) {
    |prefix| <= |s| && s[..|prefix|] == prefix
  }

  /** Java's `s.endsWith(suffix)`. */
  predicate EndsWith(s: string, suffix: string) {
    |suffix| <= |s| && s[|s| - |suffix|..] == suffix
  }

  /** `endsWith` holds exactly when the text is some prefix followed by the suffix. */
  lemma EndsWithIffConcat(s: string, suffix: string)
    ensures EndsWith(s, suffix) <==> exists p: string :: s == p + suffix
  {
    if EndsWith(s, suffix) {
      assert s == s[..|s| - |suffix|] + suffix;
    }
  }

  /** `Character.toLowerCase` on the ASCII letters; other characters are kept. */
  function LowerChar(c: char): (r: char)
    ensures 'A' <= c <= 'Z' ==> r as int == c as int + 32
    ensures !('A' <= c <= 'Z') ==> r == c
    ensures !('A' <= r <= 'Z')
  {
    if 'A' <= c <= 'Z' then (c as int + 32) as char else c
  }

  /** `String.toLowerCase()` restricted to ASCII letters. */
  function ToLower(s: string): (r: string)
    ensures |r| == |s| && forall k :: 0 <= k < |s| ==> r[k] == LowerChar(s[k])
  {
    seq(|s|, k requires 0 <= k < |s| => LowerChar(s[k]))
  }

  lemma ToLowerIdempotent(s: string)
    ensures ToLower(ToLower(s)) == ToLower(s)
  {
  }

  function DigitChar(d: nat): (c: char)
    requires d < 10
    ensures '0' <= c <= '9' && c as int - '0' as int == d
  {
    ('0' as int + d) as char
  }

  /** Java's decimal rendering of a non-negative `int`, as string concatenation uses it. */
  function NatToString(n: nat): (r: string)
    ensures |r| >= 1 && forall k :: 0 <= k < |r| ==> '0' <= r[k] <= '9'
    ensures r[0] == '0' <==> n == 0
  {
    if n < 10 then [DigitChar(n)] else NatToString(n / 10) + [DigitChar(n % 10)]
  }

  /** The number a string of decimal digits denotes. */
  function DigitsValue(s: string): nat
    requires forall k :: 0 <= k < |s| ==> '0' <= s[k] <= '9'
  {
    if s == [] then 0 else DigitsValue(s[..|s| - 1]) * 10 + (s[|s| - 1] as int - '0' as int)
  }

  /** Reading back the decimal rendering of `n` gives `n`. */
  lemma {:induction false} NatToStringRoundTrip(n: nat)
    ensures DigitsValue(NatToString(n)) == n
  {
    if n >= 10 {
      NatToStringRoundTrip(n / 10);
      var s := NatToString(n);
      assert s[..|s| - 1] == NatToString(n / 10);
    }
  }

  /** Distinct numbers render differently. */
  lemma NatToStringInjective(m: nat, n: nat)
    requires NatToString(m) == NatToString(n)
    ensures m == n
  {
    NatToStringRoundTrip(m);
    NatToStringRoundTrip(n);
  }

  /** `a.compareTo(b) <= 0`: lexicographic on characters, a proper prefix first. */
  predicate LessEq(a: string, b: string)
    decreases |a|
  {
    a == [] || (b != [] && (a[0] < b[0] || (a[0] == b[0] && LessEq(a[1..], b[1..]))))
  }

  lemma {:induction false} LessEqTotal(a: string, b: string)
    ensures LessEq(a, b) || LessEq(b, a)
    decreases |a|
  {
    if a != [] && b != [] && a[0] == b[0] {
      LessEqTotal(a[1..], b[1..]);
    }
  }

  lemma {:induction false} LessEqTransitive(a: string, b: string, c: string)
    requires LessEq(a, b) && LessEq(b, c)
    ensures LessEq(a, c)
    decreases |a|
  {
    if a != [] && a[0] == b[0] && b[0] == c[0] {
      LessEqTransitive(a[1..], b[1..], c[1..]);
    }
  }

  lemma {:induction false} LessEqAntisymmetric(a: string, b: string)
    requires LessEq(a, b) && LessEq(b, a)
    ensures a == b
    decreases |a|
  {
    if a != [] {
      LessEqAntisymmetric(a[1..], b[1..]);
      assert a == [a[0]] + a[1..] && b == [b[0]] + b[1..];
    }
  }
}
