/**
 * `parseAIResponse`: recover the JSON text from free-form model output and hand
 * it to `JSON.parse`.
 *
 * The candidate is the body of the first block fenced by three backticks and
 * tagged `json`, else of the first block fenced by three backticks, else the
 * whole text. It is trimmed and put through four rewriting passes, in order:
 * non-breaking spaces become spaces, every run of CR/LF becomes one space,
 * a comma followed (after spaces) by `}` or `]` is dropped, and a bare word
 * key after `{` or `,` is put between double quotes.
 */
module Sanitizer {
  import opened Wrappers
  import opened Text
  import opened Json

  const Fence: string := "```"
  const JsonFence: string := "```json"
  const Nbsp: char := '\U{00A0}'

  /**
   * Where the first match of `open\s*([\s\S]*?)\s*```` lies: `opener` is where
   * `open` starts, the captured body is `[start, end)` and the closing fence
   * starts at `close`.
   */
  datatype Span = Span(opener: nat, start: nat, end: nat, close: nat)

  function FenceSpan(text: string, open: string): (r: Option<Span>)
    ensures r.Some? ==>
      && IndexOf(text, open, 0) == Some(r.value.opener)
      && r.value.opener + |open| <= r.value.start <= r.value.end <= r.value.close
      && OccursAt(text, Fence, r.value.close)
      && SpacesBetween(text, r.value.opener + |open|, r.value.start)
      && SpacesBetween(text, r.value.end, r.value.close)
      && (r.value.start == |text| || !IsSpace(text[r.value.start]))
      && (r.value.end == r.value.start || !IsSpace(text[r.value.end - 1]))
      && (forall k :: r.value.start <= k < r.value.close ==> !OccursAt(text, Fence, k))
    ensures r.None? ==> IndexOf(text, open, 0).None? || FenceSpanMissingClose(text, open)
  {
    match IndexOf(text, open, 0)
    case None => None
    case Some(i) =>
      var s := SkipSpaces(text, i + |open|);
      match IndexOf(text, Fence, s)
      case None => None
      case Some(j) => Some(Span(i, s, BackOverSpaces(text, s, j), j))
  }

  /** The opener occurs but no closing fence follows it. */
  ghost predicate FenceSpanMissingClose(text: string, open: string) {
    match IndexOf(text, open, 0)
    case None => false
    case Some(i) =>
      i + |open| <= |text| &&
      forall k :: SkipSpaces(text, i + |open|) <= k <= |text| ==> !OccursAt(text, Fence, k)
  }

  /** `jsonMatch[1]`: the captured body of the first regular expression that matches, else the whole text. */
  function RawCandidate(text: string): string {
    match FenceSpan(text, JsonFence)
    case Some(sp) => text[sp.start..sp.end]
    case None =>
      match FenceSpan(text, Fence)
      case Some(sp) => text[sp.start..sp.end]
      case None => text
  }

  /** A fenced body never starts or ends with a space, so trimming it changes nothing. */
  lemma FenceBodyIsTrimmed(text: string, open: string)
    requires FenceSpan(text, open).Some?
    ensures var sp := FenceSpan(text, open).value; Trim(text[sp.start..sp.end]) == text[sp.start..sp.end]
  {
    var sp := FenceSpan(text, open).value;
    var b := text[sp.start..sp.end];
    if |b| > 0 {
      assert b[0] == text[sp.start];
      assert b[|b| - 1] == text[sp.end - 1];
      assert SkipSpaces(b, 0) == 0;
      assert !SpacesBetween(b, |Trim(b)|, |b|) || |Trim(b)| == |b|;
    }
  }

  /** Every character except the non-breaking space is kept; that one becomes a space. */
  function ReplaceNbsp(s: string): (r: string)
    ensures |r| == |s|
    ensures forall k :: 0 <= k < |s| && s[k] != Nbsp ==> r[k] == s[k]
    ensures forall k :: 0 <= k < |s| && s[k] == Nbsp ==> r[k] == ' '
    ensures Nbsp !in r
  {
    seq(|s|, k requires 0 <= k < |s| => if s[k] == Nbsp then ' ' else s[k])
  }

  predicate IsLineBreak(c: char) {
    c == '\r' || c == '\n'
  }

  /** First index at or after `i` that is not CR or LF. */
  function SkipLineBreaks(s: string, i: nat): (r: nat)
    requires i <= |s|
    ensures i <= r <= |s|
    ensures forall k :: i <= k < r ==> IsLineBreak(s[k])
    ensures r == |s| || !IsLineBreak(s[r])
    decreases |s| - i
  {
    if i == |s| || !IsLineBreak(s[i]) then i else SkipLineBreaks(s, i + 1)
  }

  /** `.replace(/[\r\n]+/g, ' ')`: every maximal run of CR/LF becomes one space. */
  function CollapseNewlines(s: string): string
    decreases |s|
  {
    if s == [] then []
    else if IsLineBreak(s[0]) then [' '] + CollapseNewlines(s[SkipLineBreaks(s, 1)..])
    else [s[0]] + CollapseNewlines(s[1..])
  }

  /** No CR or LF is left, and every other character of the result comes from the input or is the space that replaced a run. */
  lemma {:induction false} CollapseNewlinesCharacters(s: string)
    ensures forall c :: c in CollapseNewlines(s) ==> !IsLineBreak(c)
    ensures forall c :: c in CollapseNewlines(s) && c != ' ' ==> c in s
    decreases |s|
  {
    if s != [] {
      var j := if IsLineBreak(s[0]) then SkipLineBreaks(s, 1) else 1;
      CollapseNewlinesCharacters(s[j..]);
      assert forall c :: c in s[j..] ==> c in s;
    }
  }

  /** A run of CR/LF at the start of `s[1..]` ends at `n`. */
  lemma SkipRunEnds(s: string, n: nat)
    requires 1 <= n <= |s|
    requires forall k :: 1 <= k < n ==> IsLineBreak(s[k])
    requires n == |s| || !IsLineBreak(s[n])
    ensures SkipLineBreaks(s, 1) == n
  {
  }

  /** A leading run of CR/LF becomes one space. */
  lemma CollapseLeadingRun(w: string, y: string)
    requires |w| > 0 && forall k :: 0 <= k < |w| ==> IsLineBreak(w[k])
    requires y == [] || !IsLineBreak(y[0])
    ensures CollapseNewlines(w + y) == " " + CollapseNewlines(y)
  {
    var s := w + y;
    assert s[0] == w[0];
    SkipRunEnds(s, |w|);
    assert s[|w|..] == y;
  }

  /** Text without line breaks is kept as it is in front of the rest; with an empty rest, such text is unchanged. */
  lemma {:induction false} CollapseKeepsPrefix(x: string, t: string)
    requires forall k :: 0 <= k < |x| ==> !IsLineBreak(x[k])
    ensures CollapseNewlines(x + t) == x + CollapseNewlines(t)
    decreases |x|
  {
    if x != [] {
      assert x + t == [x[0]] + (x[1..] + t);
      CollapseKeepsChar(x[0], x[1..] + t);
      CollapseKeepsPrefix(x[1..], t);
      assert [x[0]] + x[1..] == x;
    } else {
      assert x + t == t;
    }
  }

  lemma CollapseKeepsChar(c: char, t: string)
    requires !IsLineBreak(c)
    ensures CollapseNewlines([c] + t) == [c] + CollapseNewlines(t)
  {
    assert ([c] + t)[0] == c && ([c] + t)[1..] == t;
  }

  /**
   * A run of CR/LF after text without line breaks becomes one space, and the
   * rest is collapsed in turn: with the identity on text without line breaks
   * this fixes the result of every input, in order.
   */
  lemma CollapseRun(x: string, w: string, y: string)
    requires forall k :: 0 <= k < |x| ==> !IsLineBreak(x[k])
    requires |w| > 0 && forall k :: 0 <= k < |w| ==> IsLineBreak(w[k])
    requires y == [] || !IsLineBreak(y[0])
    ensures CollapseNewlines(x + w + y) == x + " " + CollapseNewlines(y)
  {
    assert x + w + y == x + (w + y);
    CollapseKeepsPrefix(x, w + y);
    CollapseLeadingRun(w, y);
  }

  predicate IsCloser(c: char) {
    c == '}' || c == ']'
  }

  predicate IsCommaOrSpace(c: char) {
    c == ',' || IsSpace(c)
  }

  predicate IsQuote(c: char) {
    c == '"'
  }

  /** The position of the closer when `s[k]` starts a match of `,\s*([}\]])`. */
  function TrailingCommaAt(s: string, k: nat): (r: Option<nat>)
    requires k < |s|
    ensures r.Some? ==> k < r.value < |s| && s[k] == ',' && IsCloser(s[r.value]) && SpacesBetween(s, k + 1, r.value)
    ensures r.None? ==> s[k] != ',' || SkipSpaces(s, k + 1) == |s| || !IsCloser(s[SkipSpaces(s, k + 1)])
  {
    if s[k] != ',' then None
    else
      var m := SkipSpaces(s, k + 1);
      if m < |s| && IsCloser(s[m]) then Some(m) else None
  }

  /** `.replace(/,\s*([}\]])/g, '$1')` applied to `s[k..]`, scanning left to right. */
  function DropCommasFrom(s: string, k: nat): (r: string)
    requires k <= |s|
    ensures Embeds(r, s[k..], IsCommaOrSpace)
    ensures |r| <= |s| - k
    decreases |s| - k
  {
    if k == |s| then []
    else match TrailingCommaAt(s, k)
      case Some(m) =>
        var rest := DropCommasFrom(s, m + 1);
        EmbedsDroppedComma(s, k, m, rest);
        [s[m]] + rest
      case None =>
        var rest := DropCommasFrom(s, k + 1);
        EmbedsKept(s, k, rest, IsCommaOrSpace);
        [s[k]] + rest
  }

  /** `,\s*([}\]])` matches somewhere in `s[k..]`. */
  predicate CommaMatchFrom(s: string, k: nat)
    requires k <= |s|
  {
    exists j :: k <= j < |s| && TrailingCommaAt(s, j).Some?
  }

  /** The pass deletes something exactly when the pattern matches somewhere in `s[k..]`. */
  lemma {:induction false} DropCommasShortensIffMatch(s: string, k: nat)
    requires k <= |s|
    ensures |DropCommasFrom(s, k)| < |s| - k <==> CommaMatchFrom(s, k)
    decreases |s| - k
  {
    if k < |s| {
      var t := TrailingCommaAt(s, k);
      if t.Some? {
        assert k <= k < |s| && TrailingCommaAt(s, k).Some?;
      } else {
        DropCommasShortensIffMatch(s, k + 1);
        if CommaMatchFrom(s, k) {
          var j :| k <= j < |s| && TrailingCommaAt(s, j).Some?;
          assert k + 1 <= j;
        }
      }
    }
  }

  /** Without a match the pass returns the text unchanged. */
  lemma {:induction false} DropCommasWithoutMatch(s: string, k: nat)
    requires k <= |s| && !CommaMatchFrom(s, k)
    ensures DropCommasFrom(s, k) == s[k..]
    decreases |s| - k
  {
    if k < |s| {
      assert TrailingCommaAt(s, k).None?;
      assert !CommaMatchFrom(s, k + 1);
      DropCommasWithoutMatch(s, k + 1);
      assert s[k..] == [s[k]] + s[k + 1..];
    }
  }

  function DropTrailingCommas(s: string): string {
    DropCommasFrom(s, 0)
  }

  /**
   * When `s[k]` starts a match of `([{,]\s*)(\w+)(\s*:)`: the key is `s[a..b]`
   * and the colon is at `c`.
   */
  datatype KeyMatch = KeyMatch(a: nat, b: nat, c: nat)

  function BareKeyAt(s: string, k: nat): (r: Option<KeyMatch>)
    requires k < |s|
    ensures r.Some? ==> k < r.value.a < r.value.b <= r.value.c < |s|
  {
    if s[k] != '{' && s[k] != ',' then None
    else
      var a := SkipSpaces(s, k + 1);
      var b := SkipWord(s, a);
      if a == b then None
      else
        var c := SkipSpaces(s, b);
        if c < |s| && s[c] == ':' then Some(KeyMatch(a, b, c)) else None
  }

  /** A key match is exactly a match of the regular expression at `k`, with greedy `\s*` and `\w+`. */
  lemma BareKeyAtMatches(s: string, k: nat)
    requires k < |s|
    ensures var r := BareKeyAt(s, k);
      r.Some? ==>
        && (s[k] == '{' || s[k] == ',')
        && SpacesBetween(s, k + 1, r.value.a)
        && (forall j :: r.value.a <= j < r.value.b ==> IsWordChar(s[j]))
        && SpacesBetween(s, r.value.b, r.value.c)
        && s[r.value.c] == ':'
    ensures BareKeyAt(s, k).None? <==>
      || (s[k] != '{' && s[k] != ',')
      || SkipWord(s, SkipSpaces(s, k + 1)) == SkipSpaces(s, k + 1)
      || SkipSpaces(s, SkipWord(s, SkipSpaces(s, k + 1))) == |s|
      || s[SkipSpaces(s, SkipWord(s, SkipSpaces(s, k + 1)))] != ':'
  {
  }

  /** `.replace(/([{,]\s*)(\w+)(\s*:)/g, '$1"$2"$3')` applied to `s[k..]`. */
  function QuoteKeysFrom(s: string, k: nat): (r: string)
    requires k <= |s|
    ensures Embeds(s[k..], r, IsQuote)
    ensures |r| >= |s| - k
    decreases |s| - k
  {
    if k == |s| then []
    else match BareKeyAt(s, k)
      case Some(m) =>
        var rest := QuoteKeysFrom(s, m.c + 1);
        EmbedsQuotedKey(s, k, m.a, m.b, m.c + 1, rest);
        QuoteAround(s[k..m.a], s[m.a..m.b], s[m.b..m.c + 1]) + rest
      case None =>
        var rest := QuoteKeysFrom(s, k + 1);
        EmbedsCopied(s, k, rest, IsQuote);
        [s[k]] + rest
  }

  /** `$1"$2"$3`. */
  function QuoteAround(x: string, y: string, z: string): string {
    x + ['"'] + y + ['"'] + z
  }

  /** `([{,]\s*)(\w+)(\s*:)` matches somewhere in `s[k..]`. */
  predicate KeyMatchFrom(s: string, k: nat)
    requires k <= |s|
  {
    exists j :: k <= j < |s| && BareKeyAt(s, j).Some?
  }

  /** The pass inserts quotes exactly when the pattern matches somewhere in `s[k..]`. */
  lemma {:induction false} QuoteKeysLengthensIffMatch(s: string, k: nat)
    requires k <= |s|
    ensures |QuoteKeysFrom(s, k)| > |s| - k <==> KeyMatchFrom(s, k)
    decreases |s| - k
  {
    if k < |s| {
      var t := BareKeyAt(s, k);
      if t.Some? {
        assert k <= k < |s| && BareKeyAt(s, k).Some?;
      } else {
        QuoteKeysLengthensIffMatch(s, k + 1);
        if KeyMatchFrom(s, k) {
          var j :| k <= j < |s| && BareKeyAt(s, j).Some?;
          assert k + 1 <= j;
        }
      }
    }
  }

  /** Without a match the pass returns the text unchanged. */
  lemma {:induction false} QuoteKeysWithoutMatch(s: string, k: nat)
    requires k <= |s| && !KeyMatchFrom(s, k)
    ensures QuoteKeysFrom(s, k) == s[k..]
    decreases |s| - k
  {
    if k < |s| {
      assert BareKeyAt(s, k).None?;
      assert !KeyMatchFrom(s, k + 1);
      QuoteKeysWithoutMatch(s, k + 1);
      assert s[k..] == [s[k]] + s[k + 1..];
    }
  }

  function QuoteBareKeys(s: string): string {
    QuoteKeysFrom(s, 0)
  }

  /** The four cleaning passes, in the order the source applies them. */
  function Normalize(s: string): string {
    QuoteBareKeys(DropTrailingCommas(CollapseNewlines(ReplaceNbsp(s))))
  }

  datatype ParseFailure = NoJsonFound | InvalidJson {
    function Message(): string {
      match this
      case NoJsonFound => "No valid JSON found in AI response."
      case InvalidJson => "Failed to parse AI response as JSON."
    }
  }

  /** Neither message holds the digit 4, so neither reads as an HTTP 429. */
  lemma ParseMessagesHaveNoFour(f: ParseFailure)
    ensures '4' !in f.Message()
  {
  }

  /**
   * `parseAIResponse`. An empty captured body is an error before parsing; the
   * value `JSON.parse` returns is passed on whatever its shape.
   */
  function ParseAIResponse(text: string, parse: JsonParser): (r: Result<JsonValue, ParseFailure>)
    ensures r == Failure(NoJsonFound) <==> RawCandidate(text) == ""
    ensures r.Success? <==> RawCandidate(text) != "" && parse(Normalize(Trim(RawCandidate(text)))).Some?
    ensures r.Success? ==> Some(r.value) == parse(Normalize(Trim(RawCandidate(text))))
  {
    var raw := RawCandidate(text);
    if raw == "" then Failure(NoJsonFound)
    else
      match parse(Normalize(Trim(raw)))
      case Some(v) => Success(v)
      case None => Failure(InvalidJson)
  }

  // ---------------------------------------------------------------------------
  // "Only inserts" / "only deletes", as an embedding of one text in another.

  /** `big` is `small` with characters satisfying `extra` inserted. */
  ghost predicate Embeds(small: string, big: string, extra: char -> bool)
    decreases |big|
  {
    if |big| == 0 then |small| == 0
    else
      || (extra(big[0]) && Embeds(small, big[1..], extra))
      || (|small| > 0 && small[0] == big[0] && Embeds(small[1..], big[1..], extra))
  }

  lemma {:induction false} EmbedsReflexive(s: string, extra: char -> bool)
    ensures Embeds(s, s, extra)
    decreases |s|
  {
    if |s| > 0 {
      EmbedsReflexive(s[1..], extra);
    }
  }

  lemma {:induction false} EmbedsOnlyExtras(big: string, extra: char -> bool)
    requires forall k :: 0 <= k < |big| ==> extra(big[k])
    ensures Embeds([], big, extra)
    decreases |big|
  {
    if |big| > 0 {
      EmbedsOnlyExtras(big[1..], extra);
    }
  }

  lemma {:induction false} EmbedsConcat(s1: string, b1: string, s2: string, b2: string, extra: char -> bool)
    requires Embeds(s1, b1, extra) && Embeds(s2, b2, extra)
    ensures Embeds(s1 + s2, b1 + b2, extra)
    decreases |b1|
  {
    if |b1| == 0 {
      assert s1 + s2 == s2 && b1 + b2 == b2;
    } else {
      assert (b1 + b2)[0] == b1[0] && (b1 + b2)[1..] == b1[1..] + b2;
      if extra(b1[0]) && Embeds(s1, b1[1..], extra) {
        EmbedsConcat(s1, b1[1..], s2, b2, extra);
      } else {
        EmbedsConcat(s1[1..], b1[1..], s2, b2, extra);
        assert (s1 + s2)[0] == s1[0] && (s1 + s2)[1..] == s1[1..] + s2;
      }
    }
  }

  /** The characters of the smaller text all occur in the bigger one, and the bigger one adds only extras. */
  lemma {:induction false} EmbedsCharacters(small: string, big: string, extra: char -> bool)
    requires Embeds(small, big, extra)
    ensures forall c :: c in small ==> c in big
    ensures forall c :: c in big ==> c in small || extra(c)
    decreases |big|
  {
    if |big| > 0 {
      if extra(big[0]) && Embeds(small, big[1..], extra) {
        EmbedsCharacters(small, big[1..], extra);
        assert big == [big[0]] + big[1..];
      } else {
        EmbedsCharacters(small[1..], big[1..], extra);
        assert big == [big[0]] + big[1..];
        assert small == [small[0]] + small[1..];
      }
    }
  }

  /** Keeping `s[k]` in front of an embedding of the rest. */
  lemma EmbedsKept(s: string, k: nat, rest: string, extra: char -> bool)
    requires k < |s| && Embeds(rest, s[k + 1..], extra)
    ensures Embeds([s[k]] + rest, s[k..], extra)
  {
    assert s[k..] == [s[k]] + s[k + 1..];
    EmbedsReflexive([s[k]], extra);
    EmbedsConcat([s[k]], [s[k]], rest, s[k + 1..], extra);
  }

  /** Copying `s[k]` in front of an embedding of the rest. */
  lemma EmbedsCopied(s: string, k: nat, rest: string, extra: char -> bool)
    requires k < |s| && Embeds(s[k + 1..], rest, extra)
    ensures Embeds(s[k..], [s[k]] + rest, extra)
  {
    assert s[k..] == [s[k]] + s[k + 1..];
    EmbedsReflexive([s[k]], extra);
    EmbedsConcat([s[k]], [s[k]], s[k + 1..], rest, extra);
  }

  /** Dropping the commas and spaces of `s[k..m]` and keeping the closer `s[m]`. */
  lemma EmbedsDroppedComma(s: string, k: nat, m: nat, rest: string)
    requires k < m < |s| && (forall j :: k <= j < m ==> IsCommaOrSpace(s[j]))
    requires Embeds(rest, s[m + 1..], IsCommaOrSpace)
    ensures Embeds([s[m]] + rest, s[k..], IsCommaOrSpace)
  {
    EmbedsOnlyExtras(s[k..m], IsCommaOrSpace);
    EmbedsReflexive([s[m]], IsCommaOrSpace);
    EmbedsConcat([], s[k..m], [s[m]], [s[m]], IsCommaOrSpace);
    assert [] + [s[m]] == [s[m]];
    EmbedsConcat([s[m]], s[k..m] + [s[m]], rest, s[m + 1..], IsCommaOrSpace);
    assert s[k..] == s[k..m] + [s[m]] + s[m + 1..];
  }

  /** Quoting the key `s[a..b]` of the match `s[k..c]`. */
  lemma EmbedsQuotedKey(s: string, k: nat, a: nat, b: nat, c: nat, rest: string)
    requires k <= a <= b <= c <= |s|
    requires Embeds(s[c..], rest, IsQuote)
    ensures Embeds(s[k..], QuoteAround(s[k..a], s[a..b], s[b..c]) + rest, IsQuote)
  {
    var x, y, z := s[k..a], s[a..b], s[b..c];
    assert s[k..] == x + y + z + s[c..];
    QuotingTwoPlaces(x, y, z);
    EmbedsConcat(x + y + z, QuoteAround(x, y, z), s[c..], rest, IsQuote);
  }

  /** Putting quotes around `y` in `x + y + z` only inserts quotes. */
  lemma QuotingTwoPlaces(x: string, y: string, z: string)
    ensures Embeds(x + y + z, QuoteAround(x, y, z), IsQuote)
  {
    var q := ['"'];
    EmbedsOnlyExtras(q, IsQuote);
    EmbedsReflexive(x, IsQuote);
    EmbedsReflexive(y, IsQuote);
    EmbedsReflexive(z, IsQuote);
    EmbedsConcat(x, x, [], q, IsQuote);
    assert x + [] == x;
    EmbedsConcat(x, x + q, y, y, IsQuote);
    EmbedsConcat(x + y, x + q + y, [], q, IsQuote);
    assert x + y + [] == x + y;
    EmbedsConcat(x + y, x + q + y + q, z, z, IsQuote);
  }

  /** The normalised candidate holds no non-breaking space, no CR and no LF. */
  lemma NormalizedHasNoNbspOrLineBreak(s: string)
    ensures forall c :: c in Normalize(s) ==> c != Nbsp && !IsLineBreak(c)
  {
    var r1 := ReplaceNbsp(s);
    var r2 := CollapseNewlines(r1);
    CollapseNewlinesCharacters(r1);
    var r3 := DropTrailingCommas(r2);
    var r4 := QuoteBareKeys(r3);
    assert r2[0..] == r2;
    EmbedsCharacters(r3, r2, IsCommaOrSpace);
    assert r3[0..] == r3;
    EmbedsCharacters(r3, r4, IsQuote);
  }

  /** An empty captured body is reported as "no JSON found", without calling the parser. */
  lemma EmptyCandidateIsAnError(text: string, parse: JsonParser)
    requires RawCandidate(text) == ""
    ensures ParseAIResponse(text, parse) == Failure(NoJsonFound)
  {
  }

  // ---------------------------------------------------------------------------
  // The cleaning passes on concrete inputs.

  /** Only the comma next to the closer goes: `[1,,]` keeps one comma too many. */
  lemma DoubleCommaKeepsOne()
    ensures DropTrailingCommas("[1,,]") == "[1,]"
  {
    var s := "[1,,]";
    assert TrailingCommaAt(s, 3) == Some(4);
    assert DropCommasFrom(s, 3) == "]";
    assert TrailingCommaAt(s, 2) == None;
    assert DropCommasFrom(s, 0) == "[1,]";
  }

  /** The comma before a closing bracket goes. */
  lemma TrailingCommaDropped()
    ensures DropTrailingCommas("[1,]") == "[1]"
  {
    var s := "[1,]";
    assert TrailingCommaAt(s, 2) == Some(3);
    assert DropCommasFrom(s, 2) == "]";
    assert DropCommasFrom(s, 0) == "[1]";
  }

  /** A bare key after `{` is put between double quotes. */
  lemma BareKeyQuoted()
    ensures QuoteBareKeys("{a:1}") == "{\"a\":1}"
  {
    var s := "{a:1}";
    assert SkipSpaces(s, 1) == 1 && SkipWord(s, 1) == 2 && SkipSpaces(s, 2) == 2;
    assert BareKeyAt(s, 0) == Some(KeyMatch(1, 2, 2));
    assert QuoteKeysFrom(s, 4) == "}";
    assert QuoteKeysFrom(s, 3) == "1}";
    assert QuoteKeysFrom(s, 0) == "{\"a\":1}";
  }

  /**
   * The key pass does not know about string literals: in the JSON string
   * `",b:"` the comma, word and colon look like a key, and the result is no
   * longer valid JSON.
   */
  lemma QuotingEntersStringValues()
    ensures QuoteBareKeys("\",b:\"") == "\",\"b\":\""
  {
    var s := "\",b:\"";
    QuotedKeyInValue();
    assert BareKeyAt(s, 0).None?;
    assert QuoteKeysFrom(s, 0) == [s[0]] + QuoteKeysFrom(s, 1);
    OpeningQuoteBeforeRest();
  }

  /** The comma inside the string value starts a key match, and the rest is quoted. */
  lemma QuotedKeyInValue()
    ensures QuoteKeysFrom("\",b:\"", 1) == ",\"b\":\""
  {
    var s := "\",b:\"";
    KeyMatchInValue();
    assert QuoteKeysFrom(s, 4) == "\"";
    assert s[1..2] == "," && s[2..3] == "b" && s[3..4] == ":";
  }

  /** `,b:` is a key match whose word is `b`. */
  lemma KeyMatchInValue()
    ensures BareKeyAt("\",b:\"", 1) == Some(KeyMatch(2, 3, 3))
  {
    var s := "\",b:\"";
    assert SkipSpaces(s, 2) == 2 && SkipWord(s, 2) == 3 && SkipSpaces(s, 3) == 3;
  }

  /** The result of the key pass, read as its first character and the rest. */
  lemma OpeningQuoteBeforeRest()
    ensures ['"'] + ",\"b\":\"" == "\",\"b\":\""
  {
    var t := ",\"b\":\"";
    assert |['"'] + t| == 7;
  }
}
