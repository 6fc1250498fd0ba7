/**
 * URL spans in CSS text and srcset attributes. The scanners decide which spans are URLs; everything
 * outside the spans has to come through a rewrite byte for byte.
 */
module CssModel {
  import opened Protocol

  // ---- Characters ----

  predicate IsCssSpace(c: char) {
    c == '\t' || c == '\n' || c == '\U{0C}' || c == '\r' || c == ' '
  }

  predicate IsIdentStart(c: char) {
    'A' <= c <= 'Z' || 'a' <= c <= 'z' || c == '_' || c == '-'
  }

  predicate IsIdentChar(c: char) {
    IsIdentStart(c) || '0' <= c <= '9'
  }

  predicate IsHex(c: char) {
    '0' <= c <= '9' || 'A' <= c <= 'F' || 'a' <= c <= 'f'
  }

  predicate IsQuote(c: char) {
    c == '\'' || c == '"'
  }

  function HexValue(c: char): nat
    requires IsHex(c)
  {
    if '0' <= c <= '9' then c as int - '0' as int
    else if 'A' <= c <= 'F' then c as int - 'A' as int + 10
    else c as int - 'a' as int + 10
  }

  function ParseHex(s: string): nat
    requires forall i :: 0 <= i < |s| ==> IsHex(s[i])
  {
    if s == [] then 0 else 16 * ParseHex(s[..|s| - 1]) + HexValue(s[|s| - 1])
  }

  function Lower(s: string): (r: string)
    ensures |r| == |s|
  {
    seq(|s|, i requires 0 <= i < |s| => if 'A' <= s[i] <= 'Z' then (s[i] as int + 32) as char else s[i])
  }

  predicate At(s: string, p: nat, c: char) {
    p < |s| && s[p] == c
  }

  predicate CommentAt(s: string, p: nat) {
    At(s, p, '/') && At(s, p + 1, '*')
  }

  // ---- Escapes: the scanner's view ----

  function SkipHex(s: string, p: nat, digits: nat): (e: nat)
    requires p <= |s| && digits <= 6
    ensures p <= e <= |s| && e - p <= 6 - digits
    decreases |s| - p
  {
    if p < |s| && digits < 6 && IsHex(s[p]) then SkipHex(s, p + 1, digits + 1) else p
  }

  /** Where scanning goes on after the escape that starts at `slash`. */
  function SkipEscape(s: string, slash: nat): (e: nat)
    requires slash < |s|
    ensures slash < e <= |s|
  {
    var p := slash + 1;
    if p >= |s| then p
    else if s[p] == '\r' && At(s, p + 1, '\n') then p + 2
    else if s[p] == '\n' || s[p] == '\r' || s[p] == '\U{0C}' then p + 1
    else if IsHex(s[p]) then
      var e := SkipHex(s, p, 0);
      if e < |s| && IsCssSpace(s[e]) then e + 1 else e
    else p + 1
  }

  // ---- Escapes: the decoder's view ----

  function HexEnd(s: string, next: nat, end: nat): (e: nat)
    requires next <= end <= |s| && end - next <= 6
    requires forall i :: next <= i < end ==> IsHex(s[i])
    ensures end <= e <= |s| && e - next <= 6
    ensures forall i :: next <= i < e ==> IsHex(s[i])
    decreases |s| - end
  {
    if end < |s| && end - next < 6 && IsHex(s[end]) then HexEnd(s, next, end + 1) else end
  }

  function CodePoint(n: nat): nat {
    if n == 0 || n > 0x10ffff then 0xfffd else n
  }

  /** One turn of the decoding loop: the text it adds, and where it resumes. */
  function DecodeStep(fromCodePoint: nat -> string, s: string, p: nat): (string, nat)
    requires p < |s|
  {
    if s[p] != '\\' then ([s[p]], p + 1)
    else
      var next := p + 1;
      if next >= |s| then ("", p + 1)
      else if s[next] == '\r' && At(s, next + 1, '\n') then ("", p + 2 + 1)
      else if s[next] == '\n' || s[next] == '\r' || s[next] == '\U{0C}' then ("", p + 1 + 1)
      else if IsHex(s[next]) then
        var end := HexEnd(s, next, next);
        (fromCodePoint(CodePoint(ParseHex(s[next..end]))),
         if end < |s| && IsCssSpace(s[end]) then end + 1 else end)
      else ([s[next]], next + 1)
  }

  lemma {:induction false} HexRunsAgree(s: string, next: nat, end: nat)
    requires next <= end <= |s| && end - next <= 6
    requires forall i :: next <= i < end ==> IsHex(s[i])
    ensures HexEnd(s, next, end) == SkipHex(s, end, end - next)
    decreases |s| - end
  {
    if end < |s| && end - next < 6 && IsHex(s[end]) {
      HexRunsAgree(s, next, end + 1);
    }
  }

  /** Decoding resumes exactly where the scanner does: newline, CRLF, hex run, other character, end of input. */
  lemma ResumeAgrees(fromCodePoint: nat -> string, s: string, p: nat)
    requires p < |s| && s[p] == '\\'
    ensures DecodeStep(fromCodePoint, s, p).1 == SkipEscape(s, p)
  {
    if p + 1 < |s| && IsHex(s[p + 1]) {
      HexRunsAgree(s, p + 1, p + 1);
      assert SkipHex(s, p + 1, 0) == HexEnd(s, p + 1, p + 1);
    }
  }

  lemma StepMoves(fromCodePoint: nat -> string, s: string, p: nat)
    requires p < |s|
    ensures p < DecodeStep(fromCodePoint, s, p).1 <= |s|
    ensures DecodeStep(fromCodePoint, s, p).1 == UnitEnd(s, p)
  {
    if s[p] == '\\' { ResumeAgrees(fromCodePoint, s, p); }
  }

  function Decode(fromCodePoint: nat -> string, s: string, p: nat): string
    requires p <= |s|
    decreases |s| - p
  {
    if p == |s| then ""
    else
      StepMoves(fromCodePoint, s, p);
      var (text, next) := DecodeStep(fromCodePoint, s, p);
      text + Decode(fromCodePoint, s, next)
  }

  /** The end of the character or escape at `p`, as the scanner sees it. */
  function UnitEnd(s: string, p: nat): (e: nat)
    requires p < |s|
    ensures p < e <= |s|
  {
    if s[p] == '\\' then SkipEscape(s, p) else p + 1
  }

  // ---- A slice is decoded as it was scanned ----

  /** Scanning from `p` stops at `stop` exactly, without an escape that straddles it. */
  predicate Lands(s: string, p: nat, stop: nat)
    requires stop <= |s|
    decreases |s| - p
  {
    p == stop || (p < stop && Lands(s, UnitEnd(s, p), stop))
  }

  /** Every step of decoding `s[lo..hi]` from `p` resumes where the scanner of the whole text does. */
  predicate DecodesInStep(fromCodePoint: nat -> string, s: string, lo: nat, hi: nat, p: nat)
    requires lo <= p <= hi <= |s|
    decreases hi - p
  {
    if p == hi then true
    else
      StepMoves(fromCodePoint, s[lo..hi], p - lo);
      var next := lo + DecodeStep(fromCodePoint, s[lo..hi], p - lo).1;
      next == UnitEnd(s, p) && DecodesInStep(fromCodePoint, s, lo, hi, next)
  }

  lemma {:induction false} HexOfSlice(s: string, lo: nat, hi: nat, p: nat, digits: nat)
    requires lo <= p <= hi <= |s| && digits <= 6
    ensures lo + SkipHex(s[lo..hi], p - lo, digits) == Min(SkipHex(s, p, digits), hi)
    decreases hi - p
  {
    if p < hi && digits < 6 && IsHex(s[p]) {
      assert s[lo..hi][p - lo] == s[p];
      HexOfSlice(s, lo, hi, p + 1, digits + 1);
    } else if p < hi {
      assert s[lo..hi][p - lo] == s[p];
    }
  }

  /** An escape inside a slice ends where it ends in the whole text, unless the slice cuts it. */
  lemma UnitOfSlice(s: string, lo: nat, hi: nat, p: nat)
    requires lo <= p < hi <= |s|
    ensures lo + UnitEnd(s[lo..hi], p - lo) == UnitEnd(s, p) <==> UnitEnd(s, p) <= hi
  {
    var t := s[lo..hi];
    assert t[p - lo] == s[p];
    if s[p] == '\\' && p + 1 < hi {
      assert t[p + 1 - lo] == s[p + 1];
      HexOfSlice(s, lo, hi, p + 1, 0);
      var e := SkipHex(s, p + 1, 0);
      if e < hi { assert t[e - lo] == s[e]; }
      if p + 2 < hi { assert t[p + 2 - lo] == s[p + 2]; }
    }
  }

  /** A slice decodes in step with the scanner if and only if the scanner stops at its end. */
  lemma {:induction false} DecodesInStepIff(fromCodePoint: nat -> string, s: string, lo: nat, hi: nat, p: nat)
    requires lo <= p <= hi <= |s|
    ensures DecodesInStep(fromCodePoint, s, lo, hi, p) <==> Lands(s, p, hi)
    decreases hi - p
  {
    if p < hi {
      StepMoves(fromCodePoint, s[lo..hi], p - lo);
      UnitOfSlice(s, lo, hi, p);
      if UnitEnd(s, p) <= hi {
        DecodesInStepIff(fromCodePoint, s, lo, hi, UnitEnd(s, p));
      }
    }
  }

  // ---- Skipping ----

  /** One past the closing quote, or one past the end of the text when nothing closes it. */
  function SkipQuotedFrom(s: string, p: nat, quote: char): (e: nat)
    requires p <= |s|
    ensures p < e <= |s| + 1 && (e <= |s| ==> s[e - 1] == quote)
    decreases |s| - p
  {
    if p >= |s| then |s| + 1
    else if s[p] == '\\' then SkipQuotedFrom(s, SkipEscape(s, p), quote)
    else if s[p] == quote then p + 1
    else SkipQuotedFrom(s, p + 1, quote)
  }

  function SkipQuoted(s: string, start: nat, quote: char): (e: nat)
    requires start < |s|
    ensures start + 1 < e <= |s| + 1 && (e <= |s| ==> s[e - 1] == quote)
  {
    SkipQuotedFrom(s, start + 1, quote)
  }

  function CommentEnd(s: string, p: nat): (e: nat)
    requires p <= |s|
    ensures p <= e <= |s|
    decreases |s| - p
  {
    if p + 1 >= |s| then |s|
    else if s[p] == '*' && s[p + 1] == '/' then p + 2
    else CommentEnd(s, p + 1)
  }

  function SkipComment(s: string, start: nat): (e: nat)
    requires CommentAt(s, start)
    ensures start + 2 <= e <= |s|
  {
    CommentEnd(s, start + 2)
  }

  function SkipSpaceAndComments(s: string, p: nat): (e: nat)
    requires p <= |s|
    ensures p <= e <= |s|
    decreases |s| - p
  {
    if p >= |s| then p
    else if IsCssSpace(s[p]) then SkipSpaceAndComments(s, p + 1)
    else if CommentAt(s, p) then SkipSpaceAndComments(s, SkipComment(s, p))
    else p
  }

  function SkipSpace(s: string, p: nat): (e: nat)
    requires p <= |s|
    ensures p <= e <= |s|
    decreases |s| - p
  {
    if p < |s| && IsCssSpace(s[p]) then SkipSpace(s, p + 1) else p
  }

  function TrimEnd(s: string, lo: nat, hi: nat): (e: nat)
    requires lo <= hi <= |s|
    ensures lo <= e <= hi
    decreases hi
  {
    if hi > lo && IsCssSpace(s[hi - 1]) then TrimEnd(s, lo, hi - 1) else hi
  }

  function ReadIdentifier(s: string, p: nat): (e: nat)
    requires p <= |s|
    ensures p <= e <= |s| && (p < |s| && IsIdentChar(s[p]) ==> p < e)
    decreases |s| - p
  {
    if p < |s| && IsIdentChar(s[p]) then ReadIdentifier(s, p + 1) else p
  }

  predicate Boundary(s: string, p: nat)
    requires p <= |s|
  {
    p == 0 || !IsIdentChar(s[p - 1])
  }

  // ---- Tokens ----

  datatype Span = Span(start: nat, end: nat)

  datatype TokenKind = Comment | Quoted | Import | Url | Other

  /** `next` is one past the end of the text after a string that nothing closes. */
  datatype Token = Token(kind: TokenKind, next: nat, span: Option<Span>)

  /** The closing parenthesis of an unquoted `url(`, if there is one. */
  function UnquotedClose(s: string, p: nat, depth: nat): (e: Option<nat>)
    requires p <= |s|
    ensures e.Some? ==> p <= e.value < |s| && s[e.value] == ')'
    decreases |s| - p
  {
    if p >= |s| then None
    else if CommentAt(s, p) then UnquotedClose(s, SkipComment(s, p), depth)
    else if s[p] == '\\' then UnquotedClose(s, SkipEscape(s, p), depth)
    else if s[p] == '(' then UnquotedClose(s, p + 1, depth + 1)
    else if s[p] == ')' then
      if depth == 0 then Some(p) else UnquotedClose(s, p + 1, depth - 1)
    else UnquotedClose(s, p + 1, depth)
  }

  function UrlToken(s: string, open: nat): (t: Option<Token>)
    requires open < |s|
    ensures t.Some? ==> t.value.span.Some? && InToken(s, open, t.value)
  {
    var start := SkipSpace(s, open + 1);
    if start < |s| && IsQuote(s[start]) then
      var end := SkipQuoted(s, start, s[start]);
      if end > |s| then None
      else
        var close := SkipSpaceAndComments(s, end);
        if !At(s, close, ')') then None else Some(Token(Url, close + 1, Some(Span(start + 1, end - 1))))
    else
      var close := UnquotedClose(s, start, 0);
      if close.None? then None else Some(Token(Url, close.value + 1, Some(Span(start, TrimEnd(s, start, close.value)))))
  }

  /** A token moves on, and its span lies inside it. */
  predicate InToken(s: string, p: nat, t: Token) {
    && p < t.next <= |s| + 1
    && (t.span.Some? ==> p < t.span.value.start <= t.span.value.end < t.next <= |s|)
  }

  function ImportToken(s: string, p: nat): (t: Option<Token>)
    requires p < |s|
    ensures t.Some? ==> InToken(s, p, t.value)
  {
    var nameEnd := ReadIdentifier(s, p + 1);
    if Lower(s[p + 1..nameEnd]) != "import" then None
    else
      var target := SkipSpaceAndComments(s, nameEnd);
      if target < |s| && IsQuote(s[target]) then
        var end := SkipQuoted(s, target, s[target]);
        Some(Token(Import, end, if end <= |s| then Some(Span(target + 1, end - 1)) else None))
      else None
  }

  function IdentToken(s: string, p: nat): (t: Token)
    requires p < |s| && IsIdentStart(s[p])
    ensures InToken(s, p, t)
  {
    var nameEnd := ReadIdentifier(s, p);
    if Lower(s[p..nameEnd]) == "url" && At(s, nameEnd, '(') then
      var t := UrlToken(s, nameEnd);
      if t.Some? then t.value else Token(Other, nameEnd, None)
    else Token(Other, nameEnd, None)
  }

  /** What the scanner does at one position. */
  function TokenAt(s: string, p: nat): (t: Token)
    requires p < |s|
    ensures InToken(s, p, t)
  {
    if CommentAt(s, p) then Token(Comment, SkipComment(s, p), None)
    else if IsQuote(s[p]) then Token(Quoted, SkipQuoted(s, p, s[p]), None)
    else if s[p] == '@' && Boundary(s, p) && ImportToken(s, p).Some? then ImportToken(s, p).value
    else if IsIdentStart(s[p]) && Boundary(s, p) then IdentToken(s, p)
    else Token(Other, p + 1, None)
  }

  // ---- Replacements ----

  datatype Replacement = Replacement(start: nat, end: nat, value: string)

  /** The URL parser, the proxy, and code points as text. */
  datatype Env = Env(absolute: string -> Option<string>, rewrite: string -> string, fromCodePoint: nat -> string)

  predicate StartsWithLower(s: string, prefix: string) {
    |s| >= |prefix| && Lower(s[..|prefix|]) == prefix
  }

  /** The new text for a candidate, or nothing when it is left alone. */
  function Resolve(env: Env, candidate: string): Option<string> {
    if candidate == "" || candidate[0] == '#' || StartsWithLower(candidate, "data:") then None
    else
      var url := env.absolute(candidate);
      if url.None? then None
      else if !(StartsWithLower(url.value, "http:") || StartsWithLower(url.value, "https:")
                || StartsWithLower(url.value, "blob:")) then None
      else Some(env.rewrite(url.value))
  }

  function Replaced(env: Env, candidate: string, span: Span): (r: seq<Replacement>)
    ensures |r| <= 1 && forall i :: 0 <= i < |r| ==> r[i].start == span.start && r[i].end == span.end
    ensures |r| == 1 ==> candidate != ""
  {
    var value := Resolve(env, candidate);
    if value.None? then [] else [Replacement(span.start, span.end, value.value)]
  }

  function CssReplaced(env: Env, s: string, span: Option<Span>): (r: seq<Replacement>)
    requires span.Some? ==> span.value.start <= span.value.end <= |s|
    ensures |r| <= 1
    ensures |r| == 1 ==>
      span.Some? && r[0].start == span.value.start && r[0].end == span.value.end && span.value.start < span.value.end
  {
    if span.None? then []
    else Replaced(env, Decode(env.fromCodePoint, s[span.value.start..span.value.end], 0), span.value)
  }

  function CssReplacements(env: Env, s: string, p: nat): seq<Replacement>
    decreases |s| - p
  {
    if p >= |s| then []
    else
      var t := TokenAt(s, p);
      CssReplaced(env, s, t.span) + CssReplacements(env, s, t.next)
  }

  /** In bounds, not empty, increasing and disjoint. */
  predicate Ordered(reps: seq<Replacement>, lo: nat, hi: nat) {
    && (forall i :: 0 <= i < |reps| ==> lo <= reps[i].start < reps[i].end <= hi)
    && (forall i, j :: 0 <= i < j < |reps| ==> reps[i].end <= reps[j].start)
  }

  lemma {:induction false} CssReplacementsOrdered(env: Env, s: string, p: nat)
    ensures Ordered(CssReplacements(env, s, p), p, |s|)
    decreases |s| - p
  {
    if p < |s| {
      var t := TokenAt(s, p);
      CssReplacementsOrdered(env, s, t.next);
      var rest := CssReplacements(env, s, t.next);
      assert forall i :: 0 <= i < |rest| ==> p <= rest[i].start;
    }
  }

  // ---- Applying replacements ----

  function Applied(source: string, reps: seq<Replacement>, pos: nat): string
    requires pos <= |source| && Ordered(reps, pos, |source|)
    decreases |reps|
  {
    if reps == [] then source[pos..]
    else source[pos..reps[0].start] + reps[0].value + Applied(source, reps[1..], reps[0].end)
  }

  /** How far the replacements before `j` have moved it. */
  function Shift(reps: seq<Replacement>, j: nat): int
    decreases |reps|
  {
    if reps == [] then 0
    else (if reps[0].end <= j then |reps[0].value| - (reps[0].end - reps[0].start) else 0) + Shift(reps[1..], j)
  }

  predicate Outside(reps: seq<Replacement>, j: nat) {
    forall i :: 0 <= i < |reps| ==> !(reps[i].start <= j < reps[i].end)
  }

  lemma {:induction false} ShiftBefore(reps: seq<Replacement>, j: nat, lo: nat, hi: nat)
    requires Ordered(reps, lo, hi) && j < lo
    ensures Shift(reps, j) == 0
    decreases |reps|
  {
    if reps != [] { ShiftBefore(reps[1..], j, lo, hi); }
  }

  lemma ThirdPart(a: string, v: string, rest: string, k: int, n: nat)
    requires 0 <= k <= k + n <= |rest|
    ensures var at := |a| + |v| + k; (a + v + rest)[at..at + n] == rest[k..k + n]
  {}

  lemma OutsideTail(reps: seq<Replacement>, j: nat)
    requires reps != [] && Outside(reps, j)
    ensures Outside(reps[1..], j)
  {
    forall i | 0 <= i < |reps[1..]|
      ensures !(reps[1..][i].start <= j < reps[1..][i].end)
    {
      assert reps[1..][i] == reps[i + 1];
    }
  }

  /** Every byte outside the spans is in the output, moved by what was replaced before it. */
  lemma {:induction false} OutsideKept(source: string, reps: seq<Replacement>, pos: nat, j: nat)
    requires pos <= j < |source| && Ordered(reps, pos, |source|) && Outside(reps, j)
    ensures var out := Applied(source, reps, pos); var k := j - pos + Shift(reps, j);
      0 <= k < |out| && out[k] == source[j]
    decreases |reps|
  {
    if reps != [] {
      var r := reps[0];
      var a, rest := source[pos..r.start], Applied(source, reps[1..], r.end);
      if j < r.start {
        ShiftBefore(reps[1..], j, r.start, |source|);
        assert a[j - pos] == source[j];
      } else {
        OutsideTail(reps, j);
        OutsideKept(source, reps[1..], r.end, j);
        var k := j - r.end + Shift(reps[1..], j);
        ThirdPart(a, r.value, rest, k, 1);
        assert (a + r.value + rest)[|a| + |r.value| + k] == rest[k];
      }
    }
  }

  /** Each value stands where its span stood, moved by what was replaced before it. */
  lemma {:induction false} ValuePlaced(source: string, reps: seq<Replacement>, pos: nat, i: nat)
    returns (before: string, after: string)
    requires pos <= |source| && Ordered(reps, pos, |source|) && i < |reps|
    ensures Applied(source, reps, pos) == before + reps[i].value + after
    ensures |before| == reps[i].start - pos + Shift(reps, reps[i].start)
    decreases |reps|
  {
    var r := reps[0];
    if i == 0 {
      ShiftBefore(reps[1..], r.start, r.end, |source|);
      before, after := source[pos..r.start], Applied(source, reps[1..], r.end);
    } else {
      assert reps[1..][i - 1] == reps[i];
      var b, a := ValuePlaced(source, reps[1..], r.end, i - 1);
      before, after := source[pos..r.start] + r.value + b, a;
    }
  }

  lemma {:induction false} LengthChanges(source: string, reps: seq<Replacement>, pos: nat)
    requires pos <= |source| && Ordered(reps, pos, |source|)
    ensures |Applied(source, reps, pos)| == |source| - pos + Shift(reps, |source|)
    decreases |reps|
  {
    if reps != [] {
      LengthChanges(source, reps[1..], reps[0].end);
    }
  }

  /** Values equal to the spans they cover leave the text as it is. */
  lemma {:induction false} IdentityValues(source: string, reps: seq<Replacement>, pos: nat)
    requires pos <= |source| && Ordered(reps, pos, |source|)
    requires forall i :: 0 <= i < |reps| ==> reps[i].value == source[reps[i].start..reps[i].end]
    ensures Applied(source, reps, pos) == source[pos..]
    decreases |reps|
  {
    if reps != [] {
      IdentityValues(source, reps[1..], reps[0].end);
    }
  }

  // ---- What the CSS rewrite does ----

  function RewrittenCss(env: Env, s: string): string {
    CssReplacementsOrdered(env, s, 0);
    Applied(s, CssReplacements(env, s, 0), 0)
  }

  /** The positions where the scanner starts a token. */
  predicate TokenStart(s: string, from: nat, p: nat)
    decreases |s| - from
  {
    from < |s| && (p == from || (p > from && TokenStart(s, TokenAt(s, from).next, p)))
  }

  lemma {:induction false} TokensDisjoint(s: string, from: nat, p: nat, q: nat)
    requires TokenStart(s, from, p) && TokenStart(s, from, q) && p < q
    ensures p < |s| && TokenAt(s, p).next <= q
    decreases |s| - from
  {
    if p == from {
      TokenStartsAfter(s, TokenAt(s, from).next, q);
    } else {
      TokensDisjoint(s, TokenAt(s, from).next, p, q);
    }
  }

  lemma {:induction false} TokenStartsAfter(s: string, from: nat, p: nat)
    requires TokenStart(s, from, p)
    ensures from <= p < |s|
    decreases |s| - from
  {
    if p != from { TokenStartsAfter(s, TokenAt(s, from).next, p); }
  }

  /** Every replacement comes from an `@import` string or a `url()` that starts a token. */
  lemma {:induction false} ReplacementHasToken(env: Env, s: string, from: nat, i: nat) returns (p: nat)
    requires i < |CssReplacements(env, s, from)|
    ensures TokenStart(s, from, p) && p < |s|
    ensures var t := TokenAt(s, p); var r := CssReplacements(env, s, from)[i];
      t.kind in {Import, Url} && t.span == Some(Span(r.start, r.end)) && p < r.start <= r.end < t.next
    decreases |s| - from
  {
    var t := TokenAt(s, from);
    var here := CssReplaced(env, s, t.span);
    if i < |here| {
      p := from;
    } else {
      p := ReplacementHasToken(env, s, t.next, i - |here|);
      TokenStartsAfter(s, t.next, p);
    }
  }

  /** No replaced span touches a comment or a plain string. */
  lemma NeverInCommentOrString(env: Env, s: string, i: nat, q: nat)
    requires i < |CssReplacements(env, s, 0)|
    requires TokenStart(s, 0, q) && q < |s| && TokenAt(s, q).kind in {Comment, Quoted}
    ensures var r := CssReplacements(env, s, 0)[i]; r.end <= q || TokenAt(s, q).next <= r.start
  {
    var p := ReplacementHasToken(env, s, 0, i);
    if p < q {
      TokensDisjoint(s, 0, p, q);
    } else if q < p {
      TokensDisjoint(s, 0, q, p);
    }
  }

  lemma {:induction false} QuotedLands(s: string, p: nat, quote: char)
    requires p <= |s| && quote != '\\' && SkipQuotedFrom(s, p, quote) <= |s|
    ensures Lands(s, p, SkipQuotedFrom(s, p, quote) - 1)
    decreases |s| - p
  {
    if p < |s| {
      if s[p] == '\\' {
        QuotedLands(s, SkipEscape(s, p), quote);
      } else if s[p] != quote {
        QuotedLands(s, p + 1, quote);
      }
    }
  }

  /** The text of a quoted URL decodes in step with the scan that delimited it. */
  lemma QuotedDecodesInStep(fromCodePoint: nat -> string, s: string, start: nat)
    requires start < |s| && IsQuote(s[start]) && SkipQuoted(s, start, s[start]) <= |s|
    ensures DecodesInStep(fromCodePoint, s, start + 1, SkipQuoted(s, start, s[start]) - 1, start + 1)
  {
    var end := SkipQuoted(s, start, s[start]) - 1;
    QuotedLands(s, start + 1, s[start]);
    DecodesInStepIff(fromCodePoint, s, start + 1, end, start + 1);
  }

  /** The end of what the scan of an unquoted URL takes at once: a comment, an escape or a character. */
  function UrlUnitEnd(s: string, p: nat): (e: nat)
    requires p < |s|
    ensures p < e <= |s|
  {
    if CommentAt(s, p) then SkipComment(s, p) else UnitEnd(s, p)
  }

  /** The scan of an unquoted URL that is at `from` comes to `p`. */
  predicate Stops(s: string, from: nat, p: nat)
    decreases |s| - from
  {
    from == p || (from < p && from < |s| && Stops(s, UrlUnitEnd(s, from), p))
  }

  /** Every step of decoding `s[lo..hi]` from `p` resumes where the scan of an unquoted URL does. */
  predicate DecodesAsScanned(fromCodePoint: nat -> string, s: string, lo: nat, hi: nat, p: nat)
    requires lo <= p <= hi <= |s|
    decreases hi - p
  {
    if p == hi then true
    else
      StepMoves(fromCodePoint, s[lo..hi], p - lo);
      var next := lo + DecodeStep(fromCodePoint, s[lo..hi], p - lo).1;
      next == UrlUnitEnd(s, p) && DecodesAsScanned(fromCodePoint, s, lo, hi, next)
  }

  lemma {:induction false} CloseIsStop(s: string, p: nat, depth: nat, close: nat)
    requires p <= |s| && UnquotedClose(s, p, depth) == Some(close)
    ensures Stops(s, p, close)
    decreases |s| - p
  {
    if CommentAt(s, p) {
      CloseIsStop(s, SkipComment(s, p), depth, close);
    } else if s[p] == '\\' {
      CloseIsStop(s, SkipEscape(s, p), depth, close);
    } else if s[p] == '(' {
      CloseIsStop(s, p + 1, depth + 1, close);
    } else if s[p] == ')' {
      if depth > 0 { CloseIsStop(s, p + 1, depth - 1, close); }
    } else {
      CloseIsStop(s, p + 1, depth, close);
    }
  }

  lemma {:induction false} StopsDisjoint(s: string, from: nat, p: nat, q: nat)
    requires Stops(s, from, p) && Stops(s, from, q) && p < q
    ensures p < |s| && UrlUnitEnd(s, p) <= q
    decreases |s| - from
  {
    if p != from { StopsDisjoint(s, UrlUnitEnd(s, from), p, q); }
  }

  /** Decoding keeps step exactly if no stop of the scan is a comment or an escape that leaves the slice. */
  lemma {:induction false} InStepIff(fromCodePoint: nat -> string, s: string, lo: nat, hi: nat, p: nat)
    requires lo <= p <= hi <= |s|
    ensures DecodesAsScanned(fromCodePoint, s, lo, hi, p) <==>
      forall q :: p <= q < hi && Stops(s, p, q) ==> !CommentAt(s, q) && UnitEnd(s, q) <= hi
    ensures DecodesAsScanned(fromCodePoint, s, lo, hi, p) ==> DecodesInStep(fromCodePoint, s, lo, hi, p)
    decreases hi - p
  {
    if p < hi {
      StepMoves(fromCodePoint, s[lo..hi], p - lo);
      UnitOfSlice(s, lo, hi, p);
      assert Stops(s, p, p);
      if !CommentAt(s, p) && UnitEnd(s, p) <= hi {
        var next := UnitEnd(s, p);
        InStepIff(fromCodePoint, s, lo, hi, next);
        forall q | p < q < hi
          ensures Stops(s, p, q) <==> next <= q && Stops(s, next, q)
        {}
      }
    }
  }

  lemma {:induction false} TrimmedIsSpace(s: string, lo: nat, hi: nat)
    requires lo <= hi <= |s|
    ensures var e := TrimEnd(s, lo, hi);
      (forall i :: e <= i < hi ==> IsCssSpace(s[i])) && (lo < e ==> !IsCssSpace(s[e - 1]))
    decreases hi
  {
    if hi > lo && IsCssSpace(s[hi - 1]) { TrimmedIsSpace(s, lo, hi - 1); }
  }

  lemma {:induction false} HexRun(s: string, p: nat, digits: nat, e: nat)
    requires p <= e <= |s| && digits <= 6
    ensures SkipHex(s, p, digits) == e <==>
      (forall i :: p <= i < e ==> IsHex(s[i])) && e - p <= 6 - digits && (e < |s| && IsHex(s[e]) ==> e - p == 6 - digits)
    decreases |s| - p
  {
    if p < |s| && digits < 6 && IsHex(s[p]) && p < e { HexRun(s, p + 1, digits + 1, e); }
  }

  /** The escape at `q` reaches up to `end` and takes the white space trimmed there: a bare backslash or hex digits. */
  predicate CutsEscape(s: string, q: nat, end: nat, close: nat)
    requires q < end <= close <= |s|
  {
    end < close && s[q] == '\\' && (q + 1 == end || (end - q <= 7 && forall i :: q < i < end ==> IsHex(s[i])))
  }

  lemma CutIff(s: string, start: nat, close: nat, q: nat)
    requires start <= close <= |s| && start <= q < TrimEnd(s, start, close) && UnitEnd(s, q) <= close
    ensures UnitEnd(s, q) > TrimEnd(s, start, close) <==> CutsEscape(s, q, TrimEnd(s, start, close), close)
  {
    var end := TrimEnd(s, start, close);
    TrimmedIsSpace(s, start, close);
    if s[q] == '\\' && q + 1 < |s| && IsHex(s[q + 1]) {
      var e := SkipHex(s, q + 1, 0);
      HexRun(s, q + 1, 0, e);
      HexRun(s, q + 1, 0, end);
      if end < close { assert IsCssSpace(s[end]) && !IsHex(s[end]); }
    }
  }

  /**
   * The text of an unquoted URL decodes in step with the scan that delimited it if and only if that scan
   * skipped no comment in it and no escape of it takes the first of the white space trimmed before the
   * parenthesis.
   */
  lemma UnquotedDecodesInStep(fromCodePoint: nat -> string, s: string, start: nat, close: nat)
    requires start <= |s| && UnquotedClose(s, start, 0) == Some(close)
    ensures var end := TrimEnd(s, start, close);
      DecodesAsScanned(fromCodePoint, s, start, end, start) <==>
      forall q :: start <= q < end && Stops(s, start, q) ==> !CommentAt(s, q) && !CutsEscape(s, q, end, close)
    ensures var end := TrimEnd(s, start, close);
      DecodesAsScanned(fromCodePoint, s, start, end, start) ==> DecodesInStep(fromCodePoint, s, start, end, start)
  {
    var end := TrimEnd(s, start, close);
    InStepIff(fromCodePoint, s, start, end, start);
    CloseIsStop(s, start, 0, close);
    forall q | start <= q < end && Stops(s, start, q) && !CommentAt(s, q)
      ensures UnitEnd(s, q) <= end <==> !CutsEscape(s, q, end, close)
    {
      StopsDisjoint(s, start, q, close);
      CutIff(s, start, close, q);
    }
  }

  /** `url(\ )`: trimming the space before the parenthesis cuts the escape it belongs to. */
  lemma TrimmedSpaceCutsEscape(fromCodePoint: nat -> string)
    ensures var s := "url(\\ )";
      UrlToken(s, 3) == Some(Token(Url, 7, Some(Span(4, 5)))) && !DecodesInStep(fromCodePoint, s, 4, 5, 4)
  {
    var s := "url(\\ )";
    assert |s| == 7 && s[4] == '\\' && s[5] == ' ' && s[6] == ')';
    assert SkipSpace(s, 4) == 4;
    assert SkipEscape(s, 4) == 6;
    assert UnquotedClose(s, 6, 0) == Some(6);
    assert UnquotedClose(s, 4, 0) == Some(6);
    assert TrimEnd(s, 4, 5) == 5;
    assert TrimEnd(s, 4, 6) == 5;
    UnitOfSlice(s, 4, 5, 4);
    StepMoves(fromCodePoint, s[4..5], 0);
  }

  // ---- srcset ----

  predicate IsSeparator(c: char) {
    IsCssSpace(c) || c == ','
  }

  function SkipSeparators(s: string, p: nat): (e: nat)
    requires p <= |s|
    ensures p <= e <= |s| && (e < |s| ==> !IsSeparator(s[e]))
    decreases |s| - p
  {
    if p < |s| && IsSeparator(s[p]) then SkipSeparators(s, p + 1) else p
  }

  function RunEnd(s: string, p: nat): (e: nat)
    requires p <= |s|
    ensures p <= e <= |s| && (p < |s| && !IsCssSpace(s[p]) ==> p < e)
    ensures forall i :: p <= i < e ==> !IsCssSpace(s[i])
    decreases |s| - p
  {
    if p < |s| && !IsCssSpace(s[p]) then RunEnd(s, p + 1) else p
  }

  function TrimCommas(s: string, lo: nat, hi: nat): (e: nat)
    requires lo <= hi <= |s|
    ensures lo <= e <= hi && (lo < e ==> s[e - 1] != ',') && (lo < hi && s[lo] != ',' ==> lo < e)
    decreases hi
  {
    if hi > lo && s[hi - 1] == ',' then TrimCommas(s, lo, hi - 1) else hi
  }

  /** Past the descriptors, up to and over the next comma outside parentheses. */
  function SkipDescriptors(s: string, p: nat, parentheses: nat): (e: nat)
    requires p <= |s|
    ensures p <= e <= |s|
    decreases |s| - p
  {
    if p >= |s| then p
    else if s[p] == '(' then SkipDescriptors(s, p + 1, parentheses + 1)
    else if s[p] == ')' && parentheses > 0 then SkipDescriptors(s, p + 1, parentheses - 1)
    else if s[p] == ',' && parentheses == 0 then p + 1
    else SkipDescriptors(s, p + 1, parentheses)
  }

  /** The candidate at `start`: its URL span, and where the next one is looked for. */
  function CandidateAt(s: string, start: nat): (c: (Span, nat))
    requires start < |s| && !IsSeparator(s[start])
    ensures start == c.0.start < c.0.end <= c.1 <= |s|
  {
    var end := RunEnd(s, start);
    if s[end - 1] == ',' then (Span(start, TrimCommas(s, start, end)), end)
    else (Span(start, end), SkipDescriptors(s, end, 0))
  }

  function SrcsetReplacements(env: Env, s: string, p: nat): seq<Replacement>
    requires p <= |s|
    decreases |s| - p
  {
    var start := SkipSeparators(s, p);
    if start >= |s| then []
    else
      var (span, next) := CandidateAt(s, start);
      Replaced(env, s[span.start..span.end], span) + SrcsetReplacements(env, s, next)
  }

  /** A srcset URL: no space in it, no comma at either end, and only at the start or after a separator. */
  predicate SrcsetUrl(s: string, start: nat, end: nat) {
    && start < end <= |s| && s[start] != ',' && s[end - 1] != ','
    && forall i :: start <= i < end ==> !IsCssSpace(s[i])
  }

  lemma {:induction false} SrcsetReplacementsOrdered(env: Env, s: string, p: nat)
    requires p <= |s|
    ensures Ordered(SrcsetReplacements(env, s, p), p, |s|)
    ensures forall i :: 0 <= i < |SrcsetReplacements(env, s, p)| ==>
      var r := SrcsetReplacements(env, s, p)[i]; SrcsetUrl(s, r.start, r.end)
    decreases |s| - p
  {
    var start := SkipSeparators(s, p);
    if start < |s| {
      var (span, next) := CandidateAt(s, start);
      SrcsetReplacementsOrdered(env, s, next);
      var here: seq<Replacement> := Replaced(env, s[span.start..span.end], span);
      var rest: seq<Replacement> := SrcsetReplacements(env, s, next);
      assert SrcsetUrl(s, span.start, span.end);
      forall i | 0 <= i < |here + rest|
        ensures p <= (here + rest)[i].start && SrcsetUrl(s, (here + rest)[i].start, (here + rest)[i].end)
      {
        if i >= |here| { assert (here + rest)[i] == rest[i - |here|]; }
      }
    }
  }

  function RewrittenSrcset(env: Env, s: string): string {
    SrcsetReplacementsOrdered(env, s, 0);
    Applied(s, SrcsetReplacements(env, s, 0), 0)
  }

  // ---- A whole attribute that is one URL ----

  function FirstNonSpace(isSpace: char -> bool, s: string, p: nat): (e: nat)
    requires p <= |s|
    ensures p <= e <= |s|
    decreases |s| - p
  {
    if p < |s| && isSpace(s[p]) then FirstNonSpace(isSpace, s, p + 1) else p
  }

  function LastNonSpace(isSpace: char -> bool, s: string, lo: nat, hi: nat): (e: nat)
    requires lo <= hi <= |s|
    ensures lo <= e <= hi
    decreases hi
  {
    if hi > lo && isSpace(s[hi - 1]) then LastNonSpace(isSpace, s, lo, hi - 1) else hi
  }

  /** The value without its outer white space. */
  function Trimmed(isSpace: char -> bool, s: string): string {
    var start := FirstNonSpace(isSpace, s, 0);
    s[start..LastNonSpace(isSpace, s, start, |s|)]
  }

  function RewrittenUrl(env: Env, isSpace: char -> bool, s: string): string {
    var start := FirstNonSpace(isSpace, s, 0);
    var end := LastNonSpace(isSpace, s, start, |s|);
    Applied(s, Replaced(env, s[start..end], Span(start, end)), 0)
  }

  // ---- The candidates a text records ----

  /** Everything the CSS scan takes for a URL, decoded. */
  function CssCandidates(env: Env, s: string, p: nat): seq<string>
    decreases |s| - p
  {
    if p >= |s| then []
    else
      var t := TokenAt(s, p);
      (if t.span.Some? then [Decode(env.fromCodePoint, s[t.span.value.start..t.span.value.end], 0)] else [])
      + CssCandidates(env, s, t.next)
  }

  function SrcsetCandidates(s: string, p: nat): seq<string>
    requires p <= |s|
    decreases |s| - p
  {
    var start := SkipSeparators(s, p);
    if start >= |s| then []
    else
      var (span, next) := CandidateAt(s, start);
      [s[span.start..span.end]] + SrcsetCandidates(s, next)
  }

  predicate NoneResolves(env: Env, candidates: seq<string>) {
    forall c :: c in candidates ==> Resolve(env, c).None?
  }

  /** Nothing is replaced exactly when no candidate of the text resolves. */
  lemma {:induction false} NoCssReplacementIff(env: Env, s: string, p: nat)
    ensures CssReplacements(env, s, p) == [] <==> NoneResolves(env, CssCandidates(env, s, p))
    decreases |s| - p
  {
    if p < |s| {
      var t := TokenAt(s, p);
      NoCssReplacementIff(env, s, t.next);
      var rest := CssCandidates(env, s, t.next);
      if t.span.Some? {
        var c := Decode(env.fromCodePoint, s[t.span.value.start..t.span.value.end], 0);
        assert NoneResolves(env, [c] + rest) <==> Resolve(env, c).None? && NoneResolves(env, rest) by {
          assert c in [c] + rest && forall d :: d in rest ==> d in [c] + rest;
        }
      }
    }
  }

  lemma {:induction false} NoSrcsetReplacementIff(env: Env, s: string, p: nat)
    requires p <= |s|
    ensures SrcsetReplacements(env, s, p) == [] <==> NoneResolves(env, SrcsetCandidates(s, p))
    decreases |s| - p
  {
    var start := SkipSeparators(s, p);
    if start < |s| {
      var (span, next) := CandidateAt(s, start);
      NoSrcsetReplacementIff(env, s, next);
      var c, rest := s[span.start..span.end], SrcsetCandidates(s, next);
      assert NoneResolves(env, [c] + rest) <==> Resolve(env, c).None? && NoneResolves(env, rest) by {
        assert c in [c] + rest && forall d :: d in rest ==> d in [c] + rest;
      }
    }
  }

  /** A text none of whose candidates resolves comes out as it went in. */
  lemma UnresolvedIsKept(env: Env, s: string)
    ensures NoneResolves(env, CssCandidates(env, s, 0)) ==> RewrittenCss(env, s) == s
    ensures NoneResolves(env, SrcsetCandidates(s, 0)) ==> RewrittenSrcset(env, s) == s
  {
    NoCssReplacementIff(env, s, 0);
    NoSrcsetReplacementIff(env, s, 0);
    assert s[0..] == s;
  }

  // ---- The promises ----

  /** A byte of the input outside every span is in the output at its shifted place. */
  ghost predicate KeepsOutside(s: string, reps: seq<Replacement>, out: string) {
    forall j :: 0 <= j < |s| && Outside(reps, j) ==>
      0 <= j + Shift(reps, j) < |out| && out[j + Shift(reps, j)] == s[j]
  }

  lemma AppliedKeepsOutside(s: string, reps: seq<Replacement>)
    requires Ordered(reps, 0, |s|)
    ensures KeepsOutside(s, reps, Applied(s, reps, 0))
  {
    forall j | 0 <= j < |s| && Outside(reps, j)
      ensures var out := Applied(s, reps, 0);
        0 <= j + Shift(reps, j) < |out| && out[j + Shift(reps, j)] == s[j]
    {
      OutsideKept(s, reps, 0, j);
    }
  }

  /** For every CSS text and every environment: only URL spans change, and identical values change nothing. */
  lemma CssTouchesOnlyUrls(env: Env, s: string)
    ensures var reps := CssReplacements(env, s, 0);
      && Ordered(reps, 0, |s|) && KeepsOutside(s, reps, RewrittenCss(env, s))
      && ((forall i :: 0 <= i < |reps| ==> reps[i].value == s[reps[i].start..reps[i].end]) ==> RewrittenCss(env, s) == s)
  {
    var reps := CssReplacements(env, s, 0);
    CssReplacementsOrdered(env, s, 0);
    AppliedKeepsOutside(s, reps);
    if forall i :: 0 <= i < |reps| ==> reps[i].value == s[reps[i].start..reps[i].end] {
      IdentityValues(s, reps, 0);
      assert s[0..] == s;
    }
  }

  /** The same for srcset, whose descriptors and separators are all outside the spans. */
  lemma SrcsetTouchesOnlyUrls(env: Env, s: string)
    ensures var reps := SrcsetReplacements(env, s, 0);
      && Ordered(reps, 0, |s|) && KeepsOutside(s, reps, RewrittenSrcset(env, s))
      && (forall i :: 0 <= i < |reps| ==> SrcsetUrl(s, reps[i].start, reps[i].end))
      && ((forall i :: 0 <= i < |reps| ==> reps[i].value == s[reps[i].start..reps[i].end]) ==> RewrittenSrcset(env, s) == s)
  {
    var reps := SrcsetReplacements(env, s, 0);
    SrcsetReplacementsOrdered(env, s, 0);
    AppliedKeepsOutside(s, reps);
    if forall i :: 0 <= i < |reps| ==> reps[i].value == s[reps[i].start..reps[i].end] {
      IdentityValues(s, reps, 0);
      assert s[0..] == s;
    }
  }
}

module Css {
  import opened Protocol
  import opened CssModel

  method SkipCssEscape(source: string, slash: nat) returns (e: nat)
    requires slash < |source|
    ensures e == SkipEscape(source, slash)
  {
    var position := slash + 1;
    if position >= |source| { return position; }
    if source[position] == '\r' && At(source, position + 1, '\n') { return position + 2; }
    if source[position] == '\n' || source[position] == '\r' || source[position] == '\U{0C}' { return position + 1; }
    if IsHex(source[position]) {
      var digits := 0;
      while position < |source| && digits < 6 && IsHex(source[position])
        invariant digits <= 6 && position <= |source|
        invariant SkipHex(source, position, digits) == SkipHex(source, slash + 1, 0)
      {
        position := position + 1;
        digits := digits + 1;
      }
      if position < |source| && IsCssSpace(source[position]) { position := position + 1; }
      return position;
    }
    return position + 1;
  }

  method DecodeCssEscapes(fromCodePoint: nat -> string, value: string) returns (output: string)
    ensures output == Decode(fromCodePoint, value, 0)
  {
    output := "";
    var position := 0;
    while position < |value|
      invariant position <= |value|
      invariant output + Decode(fromCodePoint, value, position) == Decode(fromCodePoint, value, 0)
    {
      StepMoves(fromCodePoint, value, position);
      var (text, next) := DecodeStep(fromCodePoint, value, position);
      output := output + text;
      position := next;
    }
  }

  method SkipQuotedText(source: string, start: nat, quote: char) returns (e: nat)
    requires start < |source|
    ensures e == SkipQuoted(source, start, quote)
  {
    var position := start + 1;
    while position < |source|
      invariant position <= |source|
      invariant SkipQuotedFrom(source, position, quote) == SkipQuotedFrom(source, start + 1, quote)
    {
      if source[position] == '\\' {
        position := SkipCssEscape(source, position);
      } else if source[position] == quote {
        return position + 1;
      } else {
        position := position + 1;
      }
    }
    return |source| + 1;
  }

  method SkipCssSpaceAndComments(source: string, start: nat) returns (position: nat)
    requires start <= |source|
    ensures position == SkipSpaceAndComments(source, start)
  {
    position := start;
    while position < |source|
      invariant position <= |source|
      invariant SkipSpaceAndComments(source, position) == SkipSpaceAndComments(source, start)
    {
      if IsCssSpace(source[position]) {
        position := position + 1;
      } else if CommentAt(source, position) {
        position := SkipComment(source, position);
      } else {
        break;
      }
    }
  }

  method ReadName(source: string, start: nat) returns (end: nat)
    requires start <= |source|
    ensures end == ReadIdentifier(source, start)
  {
    end := start;
    while end < |source| && IsIdentChar(source[end])
      invariant start <= end <= |source|
      invariant ReadIdentifier(source, end) == ReadIdentifier(source, start)
    {
      end := end + 1;
    }
  }

  /** The closing parenthesis of an unquoted URL, with the trimmed end of its content. */
  method CloseUnquoted(css: string, contentStart: nat) returns (close: Option<nat>, contentEnd: nat)
    requires contentStart <= |css|
    ensures close == UnquotedClose(css, contentStart, 0)
    ensures close.Some? ==> contentEnd == TrimEnd(css, contentStart, close.value)
  {
    var position, depth := contentStart, 0;
    contentEnd := 0;
    while position < |css|
      invariant contentStart <= position <= |css|
      invariant UnquotedClose(css, position, depth) == UnquotedClose(css, contentStart, 0)
    {
      if CommentAt(css, position) {
        position := SkipComment(css, position);
        continue;
      }
      if css[position] == '\\' {
        position := SkipCssEscape(css, position);
        continue;
      }
      if css[position] == '(' {
        depth := depth + 1;
      } else if css[position] == ')' {
        if depth == 0 {
          contentEnd := position;
          while contentEnd > contentStart && IsCssSpace(css[contentEnd - 1])
            invariant contentStart <= contentEnd <= position
            invariant TrimEnd(css, contentStart, contentEnd) == TrimEnd(css, contentStart, position)
          {
            contentEnd := contentEnd - 1;
          }
          return Some(position), contentEnd;
        }
        depth := depth - 1;
      }
      position := position + 1;
    }
    return None, 0;
  }

  /** Returns the position after `url(...)` with its span, or nothing when it is malformed. */
  method ParseUrlFunction(css: string, openParen: nat) returns (token: Option<Token>)
    requires openParen < |css|
    ensures token == UrlToken(css, openParen)
  {
    var contentStart := openParen + 1;
    while contentStart < |css| && IsCssSpace(css[contentStart])
      invariant contentStart <= |css|
      invariant SkipSpace(css, contentStart) == SkipSpace(css, openParen + 1)
    {
      contentStart := contentStart + 1;
    }
    if contentStart < |css| && IsQuote(css[contentStart]) {
      var quotedEnd := SkipQuotedText(css, contentStart, css[contentStart]);
      if quotedEnd > |css| { return None; }
      var closeParen := SkipCssSpaceAndComments(css, quotedEnd);
      if !At(css, closeParen, ')') { return None; }
      return Some(Token(Url, closeParen + 1, Some(Span(contentStart + 1, quotedEnd - 1))));
    }
    var close, contentEnd := CloseUnquoted(css, contentStart);
    if close.None? { return None; }
    return Some(Token(Url, close.value + 1, Some(Span(contentStart, contentEnd))));
  }

  lemma AppliedNext(source: string, reps: seq<Replacement>, pos: nat, before: string)
    requires pos <= |source| && Ordered(reps, pos, |source|) && reps != []
    ensures var r := reps[0];
      && Ordered(reps[1..], r.end, |source|)
      && before + Applied(source, reps, pos) == before + (source[pos..r.start] + r.value) + Applied(source, reps[1..], r.end)
  {
    var head := source[pos..reps[0].start] + reps[0].value;
    assert before + (head + Applied(source, reps[1..], reps[0].end)) == before + head + Applied(source, reps[1..], reps[0].end);
  }

  method ApplyReplacements(source: string, replacements: seq<Replacement>) returns (output: string)
    requires Ordered(replacements, 0, |source|)
    ensures output == Applied(source, replacements, 0)
  {
    if |replacements| == 0 { return source; }
    output := "";
    var position: nat := 0;
    for i := 0 to |replacements|
      invariant position <= |source| && Ordered(replacements[i..], position, |source|)
      invariant output + Applied(source, replacements[i..], position) == Applied(source, replacements, 0)
    {
      var r := replacements[i];
      assert replacements[i..][0] == r && replacements[i..][1..] == replacements[i + 1..];
      AppliedNext(source, replacements[i..], position, output);
      output := output + (source[position..r.start] + r.value);
      position := r.end;
    }
    output := output + source[position..];
  }

  /** One turn of the main loop: where it goes on, and the span it found. */
  method NextToken(css: string, position: nat) returns (token: Token)
    requires position < |css|
    ensures token == TokenAt(css, position)
  {
    if CommentAt(css, position) { return Token(Comment, SkipComment(css, position), None); }
    var c := css[position];
    if IsQuote(c) {
      var end := SkipQuotedText(css, position, c);
      return Token(Quoted, end, None);
    }
    if c == '@' && Boundary(css, position) {
      var nameEnd := ReadName(css, position + 1);
      if Lower(css[position + 1..nameEnd]) == "import" {
        var target := SkipCssSpaceAndComments(css, nameEnd);
        if target < |css| && IsQuote(css[target]) {
          var end := SkipQuotedText(css, target, css[target]);
          return Token(Import, end, if end <= |css| then Some(Span(target + 1, end - 1)) else None);
        }
      }
    }
    if IsIdentStart(c) && Boundary(css, position) {
      var nameEnd := ReadName(css, position);
      if Lower(css[position..nameEnd]) == "url" && At(css, nameEnd, '(') {
        var url := ParseUrlFunction(css, nameEnd);
        if url.Some? { return url.value; }
      }
      return Token(Other, nameEnd, None);
    }
    return Token(Other, position + 1, None);
  }

  method AddCssUrlReplacement(env: Env, css: string, span: Span, replacements: seq<Replacement>)
    returns (more: seq<Replacement>)
    requires span.start <= span.end <= |css|
    ensures more == replacements + CssReplaced(env, css, Some(span))
  {
    var decoded := DecodeCssEscapes(env.fromCodePoint, css[span.start..span.end]);
    more := replacements + Replaced(env, decoded, span);
  }

  lemma CssStep(env: Env, css: string, p: nat, sofar: seq<Replacement>)
    requires p < |css|
    ensures var t := TokenAt(css, p);
      sofar + CssReplaced(env, css, t.span) + CssReplacements(env, css, t.next) == sofar + CssReplacements(env, css, p)
  {}

  method RewriteToken(env: Env, css: string, position: nat, replacements: seq<Replacement>)
    returns (next: nat, more: seq<Replacement>)
    requires position < |css|
    ensures position < next
    ensures more + CssReplacements(env, css, next) == replacements + CssReplacements(env, css, position)
  {
    var token := NextToken(css, position);
    CssStep(env, css, position, replacements);
    more := replacements;
    if token.span.Some? {
      more := AddCssUrlReplacement(env, css, token.span.value, replacements);
    }
    next := token.next;
  }

  method RewriteCssText(env: Env, css: string) returns (out: string)
    ensures out == RewrittenCss(env, css)
  {
    var replacements: seq<Replacement> := [];
    var position: nat := 0;
    ghost var all := CssReplacements(env, css, 0);
    while position < |css|
      invariant replacements + CssReplacements(env, css, position) == all
      decreases |css| - position
    {
      position, replacements := RewriteToken(env, css, position, replacements);
    }
    assert replacements == all;
    CssReplacementsOrdered(env, css, 0);
    out := ApplyReplacements(css, replacements);
  }

  lemma SrcsetStep(env: Env, s: string, p: nat, sofar: seq<Replacement>)
    requires p <= |s|
    ensures var start := SkipSeparators(s, p);
      if start >= |s| then SrcsetReplacements(env, s, p) == []
      else
        var (span, next) := CandidateAt(s, start);
        sofar + Replaced(env, s[span.start..span.end], span) + SrcsetReplacements(env, s, next)
          == sofar + SrcsetReplacements(env, s, p)
  {}

  method RewriteSrcset(env: Env, input: string) returns (out: string)
    ensures out == RewrittenSrcset(env, input)
  {
    var replacements: seq<Replacement> := [];
    var position: nat := 0;
    while position < |input|
      invariant position <= |input|
      invariant replacements + SrcsetReplacements(env, input, position) == SrcsetReplacements(env, input, 0)
    {
      ghost var from := position;
      SrcsetStep(env, input, from, replacements);
      while position < |input| && IsSeparator(input[position])
        invariant from <= position <= |input|
        invariant SkipSeparators(input, position) == SkipSeparators(input, from)
      {
        position := position + 1;
      }
      if position >= |input| { break; }
      var urlStart := position;
      var urlEnd, next := ScanCandidate(input, urlStart);
      replacements := replacements + Replaced(env, input[urlStart..urlEnd], Span(urlStart, urlEnd));
      position := next;
    }
    assert replacements == SrcsetReplacements(env, input, 0);
    SrcsetReplacementsOrdered(env, input, 0);
    out := ApplyReplacements(input, replacements);
  }

  method ScanCandidate(input: string, urlStart: nat) returns (urlEnd: nat, position: nat)
    requires urlStart < |input| && !IsSeparator(input[urlStart])
    ensures CandidateAt(input, urlStart) == (Span(urlStart, urlEnd), position)
  {
    position := urlStart;
    while position < |input| && !IsCssSpace(input[position])
      invariant urlStart <= position <= |input|
      invariant RunEnd(input, position) == RunEnd(input, urlStart)
    {
      position := position + 1;
    }
    urlEnd := position;
    if input[urlEnd - 1] == ',' {
      while urlEnd > urlStart && input[urlEnd - 1] == ','
        invariant urlStart <= urlEnd <= position
        invariant TrimCommas(input, urlStart, urlEnd) == TrimCommas(input, urlStart, position)
      {
        urlEnd := urlEnd - 1;
      }
    } else {
      var parentheses := 0;
      while position < |input|
        invariant urlEnd <= position <= |input|
        invariant SkipDescriptors(input, position, parentheses) == SkipDescriptors(input, urlEnd, 0)
      {
        var c := input[position];
        if c == '(' {
          parentheses := parentheses + 1;
        } else if c == ')' && parentheses > 0 {
          parentheses := parentheses - 1;
        } else if c == ',' && parentheses == 0 {
          position := position + 1;
          return;
        }
        position := position + 1;
      }
    }
  }

  method RewriteUrlPreservingSpace(env: Env, isSpace: char -> bool, input: string) returns (out: string)
    ensures out == RewrittenUrl(env, isSpace, input)
  {
    var start := FirstNonSpace(isSpace, input, 0);
    if start == |input| {
      assert Resolve(env, input[start..start]).None?;
      return input;
    }
    var end := |input|;
    while end > start && isSpace(input[end - 1])
      invariant start <= end <= |input|
      invariant LastNonSpace(isSpace, input, start, end) == LastNonSpace(isSpace, input, start, |input|)
    {
      end := end - 1;
    }
    out := ApplyReplacements(input, Replaced(env, input[start..end], Span(start, end)));
  }
}
