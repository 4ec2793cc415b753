/** The JavaScript string operations the service relies on:
    `String.prototype.trim`, `split` on a one-character separator,
    `startsWith` and `substring`, plus the infix and prefix predicates used
    to state what a built prompt contains. Strings are sequences of Unicode
    scalar values; no normalisation is modelled. */
module JsString {

  /** ECMAScript WhiteSpace and LineTerminator code points: exactly the
      characters `trim` removes. */
  predicate IsWhitespace(c: char) {
    || c == '\U{0009}' || c == '\U{000A}' || c == '\U{000B}' || c == '\U{000C}' || c == '\U{000D}'
    || c == '\U{0020}' || c == '\U{00A0}' || c == '\U{1680}'
    || ('\U{2000}' <= c <= '\U{200A}')
    || c == '\U{2028}' || c == '\U{2029}' || c == '\U{202F}' || c == '\U{205F}'
    || c == '\U{3000}' || c == '\U{FEFF}'
  }

  predicate AllWhitespace(s: string) {
    forall i :: 0 <= i < |s| ==> IsWhitespace(s[i])
  }

  /** Neither end of `s` is whitespace. */
  predicate IsTrimmed(s: string) {
    s == [] || (!IsWhitespace(s[0]) && !IsWhitespace(s[|s| - 1]))
  }

  /** How many whitespace characters `s` begins with. */
  function LeadingWhitespace(s: string): (n: nat)
    ensures n <= |s|
    ensures forall i :: 0 <= i < n ==> IsWhitespace(s[i])
    ensures n < |s| ==> !IsWhitespace(s[n])
    decreases |s|
  {
    if |s| > 0 && IsWhitespace(s[0]) then 1 + LeadingWhitespace(s[1..]) else 0
  }

  /** How many whitespace characters `s` ends with. */
  function TrailingWhitespace(s: string): (n: nat)
    ensures n <= |s|
    ensures forall i :: |s| - n <= i < |s| ==> IsWhitespace(s[i])
    ensures n < |s| ==> !IsWhitespace(s[|s| - 1 - n])
    decreases |s|
  {
    if |s| > 0 && IsWhitespace(s[|s| - 1]) then 1 + TrailingWhitespace(s[..|s| - 1]) else 0
  }

  /** `trimStart`: `s` without its leading whitespace. */
  function TrimStart(s: string): (r: string)
    ensures r == [] || !IsWhitespace(r[0])
  {
    s[LeadingWhitespace(s)..]
  }

  /** `trimEnd`: `s` without its trailing whitespace. */
  function TrimEnd(s: string): (r: string)
    ensures r == [] || !IsWhitespace(r[|r| - 1])
  {
    s[..|s| - TrailingWhitespace(s)]
  }

  /** `trim`: whitespace removed from both ends. */
  function Trim(s: string): (r: string)
    ensures IsTrimmed(r)
    ensures |r| <= |s|
  {
    TrimEnd(TrimStart(s))
  }

  /** `trim` removes only whitespace, and only at the ends: `Trim(s)` is
      the block of `s` after its leading whitespace, and everything after
      that block is whitespace too. */
  lemma TrimFrame(s: string)
    ensures var k := LeadingWhitespace(s);
      && k + |Trim(s)| <= |s|
      && (forall j :: 0 <= j < |Trim(s)| ==> Trim(s)[j] == s[k + j])
      && (forall i :: 0 <= i < k ==> IsWhitespace(s[i]))
      && (forall i :: k + |Trim(s)| <= i < |s| ==> IsWhitespace(s[i]))
  {
    var t := TrimStart(s);
    assert Trim(s) == t[..|t| - TrailingWhitespace(t)];
    assert |Trim(s)| == |t| - TrailingWhitespace(t);
  }

  /** A string is blank (`!s.trim()` in JavaScript) exactly when it is all
      whitespace, the empty string included. */
  lemma TrimEmptyIffBlank(s: string)
    ensures Trim(s) == [] <==> AllWhitespace(s)
  {
    var k := LeadingWhitespace(s);
    var t := s[k..];
    if Trim(s) == [] {
      assert TrailingWhitespace(t) == |t|;
    }
  }

  /** `trim` is determined by the frame: whatever whitespace surrounds a
      trimmed non-empty core, trimming yields that core. */
  lemma TrimUnique(pre: string, mid: string, post: string)
    requires AllWhitespace(pre) && AllWhitespace(post)
    requires IsTrimmed(mid) && mid != []
    ensures Trim(pre + mid + post) == mid
  {
    var s := pre + mid + post;
    assert s[|pre|] == mid[0];
    assert forall i :: 0 <= i < |pre| ==> s[i] == pre[i];
    var k := LeadingWhitespace(s);
    assert k == |pre|;
    var t := s[k..];
    assert t == mid + post;
    assert t[|t| - 1 - |post|] == mid[|mid| - 1];
    assert forall i :: |t| - |post| <= i < |t| ==> t[i] == post[i - |mid|];
    assert TrailingWhitespace(t) == |post|;
    assert t[..|t| - |post|] == mid;
  }

  /** `s.split(sep)`: the maximal separator-free pieces of `s`, in order.
      `"".split(sep)` is `[""]`, so there is always at least one piece. */
  function Split(s: string, sep: char): (pieces: seq<string>)
    ensures |pieces| >= 1
    ensures forall i :: 0 <= i < |pieces| ==> sep !in pieces[i]
    ensures Join(pieces, sep) == s
    decreases |s|
  {
    if |s| == 0 then [""]
    else
      var rest := Split(s[1..], sep);
      if s[0] == sep then
        [""] + rest
      else
        assert Join(rest, sep) == rest[0] + (if |rest| == 1 then [] else [sep] + Join(rest[1..], sep));
        [[s[0]] + rest[0]] + rest[1..]
  }

  /** `pieces.join(sep)`, the inverse of `Split`. */
  function Join(pieces: seq<string>, sep: char): string
    requires |pieces| >= 1
  {
    if |pieces| == 1 then pieces[0] else pieces[0] + [sep] + Join(pieces[1..], sep)
  }

  /** Splitting a join of separator-free pieces gives the pieces back. */
  lemma {:induction false} SplitJoin(pieces: seq<string>, sep: char)
    requires |pieces| >= 1
    requires forall i :: 0 <= i < |pieces| ==> sep !in pieces[i]
    ensures Split(Join(pieces, sep), sep) == pieces
    decreases |pieces|
  {
    if |pieces| == 1 {
      SplitSingle(pieces[0], sep);
    } else {
      SplitJoin(pieces[1..], sep);
      SplitPiece(pieces[0], Join(pieces[1..], sep), sep);
      assert pieces == [pieces[0]] + pieces[1..];
    }
  }

  /** A separator-free string is a single piece. */
  lemma {:induction false} SplitSingle(p: string, sep: char)
    requires sep !in p
    ensures Split(p, sep) == [p]
    decreases |p|
  {
    if p != [] {
      SplitSingle(p[1..], sep);
      assert [p[0]] + p[1..] == p;
    }
  }

  /** A separator-free `p`, followed by a separator and the rest of the
      text, is split off as the first piece. */
  lemma {:induction false} SplitPiece(p: string, tail: string, sep: char)
    requires sep !in p
    ensures Split(p + [sep] + tail, sep) == [p] + Split(tail, sep)
    decreases |p|
  {
    var s := p + [sep] + tail;
    if p == [] {
      assert s == [sep] + tail;
      assert s[1..] == tail;
    } else {
      assert s[0] == p[0] && s[0] != sep;
      assert s[1..] == p[1..] + [sep] + tail;
      SplitPiece(p[1..], tail, sep);
      var rest := Split(s[1..], sep);
      assert rest == [p[1..]] + Split(tail, sep);
      assert Split(s, sep) == [[p[0]] + rest[0]] + rest[1..];
      assert [p[0]] + p[1..] == p;
      assert rest[1..] == Split(tail, sep);
    }
  }

  /** `s.startsWith(prefix)`. */
  predicate StartsWith(s: string, prefix: string) {
    |prefix| <= |s| && s[..|prefix|] == prefix
  }

  /** `s.substring(start)`: from `start` (clamped to the length) to the end. */
  function Substring(s: string, start: nat): (r: string)
    ensures start <= |s| ==> s == s[..start] + r
    ensures start >= |s| ==> r == []
  {
    if start >= |s| then [] else s[start..]
  }

  /** `t` occurs in `s` as a contiguous block. */
  predicate IsInfix(t: string, s: string) {
    exists k :: 0 <= k <= |s| - |t| && StartsWith(s[k..], t)
  }

  /** The pieces of a template, joined in order. */
  function Concat(pieces: seq<string>): string {
    if pieces == [] then [] else pieces[0] + Concat(pieces[1..])
  }

  /** Where piece `i` starts in `Concat(pieces)`. */
  function Offset(pieces: seq<string>, i: nat): nat
    requires i <= |pieces|
  {
    if i == 0 then 0 else |pieces[0]| + Offset(pieces[1..], i - 1)
  }

  /** Every piece occurs in the joined text at its offset, so pieces appear
      in order and without overlap. */
  lemma {:induction false} ConcatAt(pieces: seq<string>, i: nat)
    requires i < |pieces|
    ensures Offset(pieces, i) + |pieces[i]| <= |Concat(pieces)|
    ensures StartsWith(Concat(pieces)[Offset(pieces, i)..], pieces[i])
    ensures Offset(pieces, i) + |pieces[i]| <= Offset(pieces, i + 1)
    decreases i
  {
    var s := Concat(pieces);
    var rest := Concat(pieces[1..]);
    assert s == pieces[0] + rest;
    if i == 0 {
      assert s[..|pieces[0]|] == pieces[0];
    } else {
      ConcatAt(pieces[1..], i - 1);
      var k := Offset(pieces[1..], i - 1);
      assert s[|pieces[0]| + k..] == rest[k..];
    }
  }

  lemma ConcatInfix(pieces: seq<string>, i: nat)
    requires i < |pieces|
    ensures IsInfix(pieces[i], Concat(pieces))
  {
    ConcatAt(pieces, i);
  }

  lemma InfixOfConcat(a: string, t: string, b: string)
    ensures IsInfix(t, a + t + b)
  {
    var s := a + t + b;
    assert s[|a|..][..|t|] == t;
    assert StartsWith(s[|a|..], t);
  }
}
