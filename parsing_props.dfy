/** What utils/parsingUtils.ts promises, proved about the model in parsing.dfy:
    the value of timestamps, the header pattern, the line state machine, the
    round trip with the record formatter of App.tsx:78, and the duplication
    a NaN timestamp causes. */
module TranscriptProperties {
  import opened Optional
  import opened Text
  import opened Parsing

  // ---------------------------------------------------------------------
  // parseFloat and parseTimestamp

  predicate AllDigits(s: string) {
    forall k :: 0 <= k < |s| ==> IsDigit(s[k])
  }

  /** A non-negative number in plain decimal notation: the digits before
      the dot, and those after it (none: no dot is written). */
  datatype Decimal = Decimal(whole: string, frac: string)

  predicate ValidDecimal(x: Decimal) {
    x.whole != [] && AllDigits(x.whole) && AllDigits(x.frac)
  }

  function DecimalText(x: Decimal): string {
    if x.frac == [] then x.whole else x.whole + "." + x.frac
  }

  /** The number a plain decimal denotes. */
  function DecimalValue(x: Decimal): real
    requires ValidDecimal(x)
  {
    DigitsValue(x.whole) as real + FractionValue(x.frac)
  }

  /** The digits and the dot of a decimal, then what follows it. */
  lemma DecimalTextChars(x: Decimal, rest: string)
    requires ValidDecimal(x) && IsNumberText(rest)
    ensures var s := DecimalText(x) + rest;
      IsNumberText(s) && |x.whole| <= |s| && s[..|x.whole|] == x.whole &&
      (x.frac != [] ==> |x.whole| + 1 + |x.frac| <= |s| && s[|x.whole|] == '.' &&
                        s[|x.whole| + 1..|x.whole| + 1 + |x.frac|] == x.frac &&
                        s[|x.whole| + 1 + |x.frac|..] == rest) &&
      (x.frac == [] ==> s[|x.whole|..] == rest)
  {
    var s := DecimalText(x) + rest;
    var w, f := x.whole, x.frac;
    if f == [] {
      assert s == w + rest;
      forall k | 0 <= k < |s| ensures IsNumberChar(s[k]) {
        if k < |w| { assert s[k] == w[k]; } else { assert s[k] == rest[k - |w|]; }
      }
    } else {
      assert s == w + ("." + f + rest);
      forall k | 0 <= k < |s| ensures IsNumberChar(s[k]) {
        if k < |w| {
          assert s[k] == w[k];
        } else if |w| < k < |w| + 1 + |f| {
          assert s[k] == f[k - |w| - 1];
        } else if k >= |w| + 1 + |f| {
          assert s[k] == rest[k - |w| - 1 - |f|];
        }
      }
    }
  }

  /** Where the digit runs of a decimal followed by `rest` end. */
  lemma DecimalRuns(x: Decimal, rest: string)
    requires ValidDecimal(x) && IsNumberText(rest)
    requires rest == [] || (x.frac != [] && rest[0] == '.')
    ensures var s := DecimalText(x) + rest;
      var i := |x.whole|;
      IsNumberText(s) && i <= |s| && SpanEnd(s, 0, Digit) == i && s[..i] == x.whole &&
      (x.frac == [] ==> i == |s|) &&
      (x.frac != [] ==>
         i + 1 + |x.frac| <= |s| && s[i] == '.' &&
         SpanEnd(s, i + 1, Digit) == i + 1 + |x.frac| && s[i + 1..i + 1 + |x.frac|] == x.frac)
  {
    var s := DecimalText(x) + rest;
    var w, f := x.whole, x.frac;
    DecimalTextChars(x, rest);
    assert forall k :: 0 <= k < |w| ==> InClass(Digit, s[k]) by {
      forall k | 0 <= k < |w| ensures InClass(Digit, s[k]) {
        assert s[k] == s[..|w|][k];
      }
    }
    if f == [] {
      SpanEndExact(s, 0, |w|, Digit);
    } else {
      var j := |w| + 1 + |f|;
      assert forall k :: |w| + 1 <= k < j ==> InClass(Digit, s[k]) by {
        forall k | |w| + 1 <= k < j ensures InClass(Digit, s[k]) {
          assert s[k] == s[|w| + 1..j][k - |w| - 1];
        }
      }
      assert j < |s| ==> s[j] == rest[0] by {
        if j < |s| { assert s[j] == s[j..][0]; }
      }
      SpanEndExact(s, 0, |w|, Digit);
      SpanEndExact(s, |w| + 1, j, Digit);
    }
  }

  /** `parseFloat` reads the longest prefix of the form `digits [. digits]`:
      what follows a plain decimal is ignored when it cannot extend it. */
  lemma ParseFloatPrefix(x: Decimal, rest: string)
    requires ValidDecimal(x) && IsNumberText(rest)
    requires rest == [] || (x.frac != [] && rest[0] == '.')
    ensures IsNumberText(DecimalText(x) + rest)
    ensures ParseFloat(DecimalText(x) + rest) == Some(DecimalValue(x))
  {
    DecimalRuns(x, rest);
  }

  /** A plain decimal parses to the number it denotes. */
  lemma ParseFloatPlain(x: Decimal)
    requires ValidDecimal(x)
    ensures IsNumberText(DecimalText(x))
    ensures ParseFloat(DecimalText(x)) == Some(DecimalValue(x))
  {
    ParseFloatPrefix(x, []);
    assert DecimalText(x) + [] == DecimalText(x);
  }

  /** `parseFloat` is NaN exactly when the text starts neither with a digit
      nor with a dot followed by a digit (`"."`, `".."`, `""`). */
  lemma ParseFloatNaN(s: string)
    requires IsNumberText(s)
    ensures ParseFloat(s).None? <==>
      !((|s| > 0 && IsDigit(s[0])) || (|s| > 1 && s[0] == '.' && IsDigit(s[1])))
  {
    var i := SpanEnd(s, 0, Digit);
    if |s| > 0 && IsDigit(s[0]) {
      assert i > 0;
    } else {
      assert i == 0;
      if |s| > 0 {
        assert s[0] == '.';
        var j := SpanEnd(s, 1, Digit);
        assert j == 1 <==> !(|s| > 1 && IsDigit(s[1]));
      }
    }
  }

  /** With a colon the result is the last segment, plus 60 times the one
      before, plus 3600 times the one before that; a NaN or missing segment
      counts 0, and the result is never NaN. */
  lemma TimestampWithColon(s: string)
    requires IsTimestampText(s) && ':' in s
    ensures TimestampSeconds(s) == Some(ColonSeconds(Segments(s)))
    ensures var segs := Segments(s);
      ColonSeconds(segs)
      == ParseFloat(segs[|segs| - 1]).GetOr(0.0)
       + (if |segs| > 1 then 60.0 * ParseFloat(segs[|segs| - 2]).GetOr(0.0) else 0.0)
       + (if |segs| > 2 then 3600.0 * ParseFloat(segs[|segs| - 3]).GetOr(0.0) else 0.0)
  {
    TrimNoSpace(s);
    assert TimestampSeconds(s) == TimestampValue(s);
  }

  /** Segments left of the hours are ignored. */
  lemma ColonIgnoresLeft(pre: seq<string>, segs: seq<string>)
    requires forall j :: 0 <= j < |pre| ==> IsNumberText(pre[j])
    requires forall j :: 0 <= j < |segs| ==> IsNumberText(segs[j])
    requires |segs| >= 3
    ensures forall j :: 0 <= j < |pre + segs| ==> IsNumberText((pre + segs)[j])
    ensures ColonSeconds(pre + segs) == ColonSeconds(segs)
  {
    var all := pre + segs;
    assert forall j :: 0 <= j < |all| ==> IsNumberText(all[j]) by {
      forall j | 0 <= j < |all| ensures IsNumberText(all[j]) {
        if j < |pre| { assert all[j] == pre[j]; } else { assert all[j] == segs[j - |pre|]; }
      }
    }
    assert all[|all| - 1] == segs[|segs| - 1];
    assert all[|all| - 2] == segs[|segs| - 2];
    assert all[|all| - 3] == segs[|segs| - 3];
  }

  /** Without a colon the result is `parseFloat` of the text. */
  lemma TimestampWithoutColon(s: string)
    requires IsTimestampText(s) && ':' !in s
    ensures IsNumberText(s)
    ensures TimestampSeconds(s) == ParseFloat(s)
  {
    TrimNoSpace(s);
  }

  /** A plain decimal timestamp denotes its own value in seconds. */
  lemma TimestampPlain(x: Decimal)
    requires ValidDecimal(x)
    ensures IsTimestampText(DecimalText(x))
    ensures TimestampSeconds(DecimalText(x)) == Some(DecimalValue(x))
  {
    var s := DecimalText(x);
    ParseFloatPlain(x);
    assert ':' !in s by {
      forall k | 0 <= k < |s| ensures s[k] != ':' {
        assert IsNumberChar(s[k]);
      }
    }
    TimestampWithoutColon(s);
  }

  // ---------------------------------------------------------------------
  // The header pattern

  /** Every character of `s[i..j]` is of class `p`. */
  predicate RunOf(s: string, i: nat, j: nat, p: CharClass) {
    i <= j <= |s| && forall k :: i <= k < j ==> InClass(p, s[k])
  }

  /** The tail of a shape, from the spaces before the role letter at `e`. */
  predicate RoleShape(s: string, i: nat, e: nat) {
    i < e && RunOf(s, i, e, Whitespace) && e + 1 < |s| && IsRoleLetter(s[e]) && s[e + 1] == ':'
  }

  /** The tail of a shape, from the spaces before "speaker" at `d`. */
  predicate SpeakerShape(s: string, i: nat, d: nat, e: nat) {
    i < d && RunOf(s, i, d, Whitespace) && SpeakerWordAt(s, d) && RoleShape(s, d + 7, e)
  }

  /** The tail of a shape, from the spaces before `]` at `c`. */
  predicate CloseShape(s: string, b: nat, c: nat, d: nat, e: nat) {
    RunOf(s, b, c, Whitespace) && c < |s| && s[c] == ']' && SpeakerShape(s, c + 1, d, e)
  }

  /** The tail of a shape, from the spaces before the timestamp group `s[a..b]`. */
  predicate TimestampShape(s: string, i: nat, a: nat, b: nat, c: nat, d: nat, e: nat) {
    RunOf(s, i, a, Whitespace) && a < b && RunOf(s, a, b, TimestampChars) && CloseShape(s, b, c, d, e)
  }

  /** The pattern `\[\s*([\d:.]+)\s*]\s+Speaker\s+([AB]):`, case-insensitive,
      laid over `s` from position `p`: `[` at `p`, spaces up to `a`, the
      timestamp group `s[a..b]`, spaces up to `]` at `c`, spaces up to `d`,
      "speaker" in any case, spaces up to the role letter at `e`, then `:`. */
  predicate ShapeAt(s: string, p: nat, a: nat, b: nat, c: nat, d: nat, e: nat) {
    p < |s| && s[p] == '[' && TimestampShape(s, p + 1, a, b, c, d, e)
  }

  /** The pattern can be laid over `s` from position `p` in some way. */
  ghost predicate HeaderAt(s: string, p: nat) {
    exists a: nat, b: nat, c: nat, d: nat, e: nat :: ShapeAt(s, p, a, b, c, d, e)
  }

  lemma RolePartExact(s: string, a: nat, b: nat, i: nat, e: nat)
    requires RoleShape(s, i, e)
    ensures RolePart(s, a, b, i) == Some(GroupsFrom(s, a, b, e))
  {
    SpanEndExact(s, i, e, Whitespace);
  }

  lemma SpeakerPartExact(s: string, a: nat, b: nat, i: nat, d: nat, e: nat)
    requires SpeakerShape(s, i, d, e)
    ensures SpeakerPart(s, a, b, i) == Some(GroupsFrom(s, a, b, e))
  {
    assert !InClass(Whitespace, s[d]);
    SpanEndExact(s, i, d, Whitespace);
    RolePartExact(s, a, b, d + 7, e);
  }

  lemma ClosePartExact(s: string, a: nat, b: nat, c: nat, d: nat, e: nat)
    requires CloseShape(s, b, c, d, e)
    ensures ClosePart(s, a, b) == Some(GroupsFrom(s, a, b, e))
  {
    SpanEndExact(s, b, c, Whitespace);
    SpeakerPartExact(s, a, b, c + 1, d, e);
  }

  lemma TimestampPartExact(s: string, i: nat, a: nat, b: nat, c: nat, d: nat, e: nat)
    requires TimestampShape(s, i, a, b, c, d, e)
    ensures TimestampPart(s, i) == Some(GroupsFrom(s, a, b, e))
  {
    assert !InClass(TimestampChars, s[b]) by {
      if b < c { assert InClass(Whitespace, s[b]); }
    }
    SpanEndExact(s, i, a, Whitespace);
    SpanEndExact(s, a, b, TimestampChars);
    ClosePartExact(s, a, b, c, d, e);
  }

  /** Each run in the pattern ends where the next element of the pattern
      starts, so a shape is matched as it is laid out: the timestamp group
      `s[a..b]`, the role letter `s[e]`, and the text group after them. */
  lemma MatchAtExact(s: string, p: nat, a: nat, b: nat, c: nat, d: nat, e: nat)
    requires ShapeAt(s, p, a, b, c, d, e)
    ensures MatchAt(s, p) == Some(GroupsFrom(s, a, b, e))
  {
    TimestampPartExact(s, p + 1, a, b, c, d, e);
  }

  lemma RolePartShape(s: string, a: nat, b: nat, i: nat) returns (e: nat)
    requires i <= |s| && RolePart(s, a, b, i).Some?
    ensures RoleShape(s, i, e) && RolePart(s, a, b, i) == Some(GroupsFrom(s, a, b, e))
  {
    e := SpanEnd(s, i, Whitespace);
    SpanEndRun(s, i, Whitespace);
  }

  lemma SpeakerPartShape(s: string, a: nat, b: nat, i: nat) returns (d: nat, e: nat)
    requires i <= |s| && SpeakerPart(s, a, b, i).Some?
    ensures SpeakerShape(s, i, d, e) && SpeakerPart(s, a, b, i) == Some(GroupsFrom(s, a, b, e))
  {
    d := SpanEnd(s, i, Whitespace);
    SpanEndRun(s, i, Whitespace);
    e := RolePartShape(s, a, b, d + 7);
  }

  lemma ClosePartShape(s: string, a: nat, b: nat) returns (c: nat, d: nat, e: nat)
    requires b <= |s| && ClosePart(s, a, b).Some?
    ensures CloseShape(s, b, c, d, e) && ClosePart(s, a, b) == Some(GroupsFrom(s, a, b, e))
  {
    c := SpanEnd(s, b, Whitespace);
    SpanEndRun(s, b, Whitespace);
    d, e := SpeakerPartShape(s, a, b, c + 1);
  }

  lemma TimestampPartShape(s: string, i: nat) returns (a: nat, b: nat, c: nat, d: nat, e: nat)
    requires i <= |s| && TimestampPart(s, i).Some?
    ensures TimestampShape(s, i, a, b, c, d, e) && TimestampPart(s, i) == Some(GroupsFrom(s, a, b, e))
  {
    a := SpanEnd(s, i, Whitespace);
    b := SpanEnd(s, a, TimestampChars);
    SpanEndRun(s, i, Whitespace);
    SpanEndRun(s, a, TimestampChars);
    c, d, e := ClosePartShape(s, a, b);
  }

  /** Conversely, a match is such a shape. */
  lemma MatchAtShape(s: string, p: nat)
    requires MatchAt(s, p).Some?
    ensures exists a: nat, b: nat, c: nat, d: nat, e: nat ::
      ShapeAt(s, p, a, b, c, d, e) && MatchAt(s, p) == Some(GroupsFrom(s, a, b, e))
  {
    var a, b, c, d, e := TimestampPartShape(s, p + 1);
    assert ShapeAt(s, p, a, b, c, d, e);
  }

  /** `MatchAt` recognises exactly the shapes of the pattern. */
  lemma MatchAtIff(s: string, p: nat)
    ensures MatchAt(s, p).Some? <==> HeaderAt(s, p)
  {
    if MatchAt(s, p).Some? {
      MatchAtShape(s, p);
    }
    if HeaderAt(s, p) {
      var a: nat, b: nat, c: nat, d: nat, e: nat :| ShapeAt(s, p, a, b, c, d, e);
      MatchAtExact(s, p, a, b, c, d, e);
    }
  }

  /** No header lies before the first position `HeaderStart` finds. */
  lemma NoHeaderBefore(s: string, p: nat, r: Option<nat>)
    requires p <= |s| && r == HeaderStart(s, p)
    ensures forall q: nat :: p <= q < |s| && (r.None? || q < r.value) ==> !HeaderAt(s, q)
  {
    forall q: nat | p <= q < |s| && (r.None? || q < r.value) ensures !HeaderAt(s, q) {
      MatchAtIff(s, q);
    }
  }

  /** Group 3: whitespace after the colon skipped, then the rest of the line
      up to a line terminator. */
  function RestText(s: string, i: nat): string
    requires i <= |s|
  {
    var f := SpanEnd(s, i, Whitespace);
    s[f..SpanEnd(s, f, NonTerminator)]
  }

  /** The groups `FindHeader` reports come from the shape at the position
      `HeaderStart` finds. */
  lemma FindHeaderAt(s: string) returns (p: nat, a: nat, b: nat, c: nat, d: nat, e: nat)
    requires FindHeader(s).Some?
    ensures HeaderStart(s, 0) == Some(p) && ShapeAt(s, p, a, b, c, d, e)
    ensures FindHeader(s).value == HeaderMatch(s[a..b], s[e], RestText(s, e + 2))
  {
    p := HeaderStart(s, 0).value;
    a, b, c, d, e := TimestampPartShape(s, p + 1);
  }

  /** `line.match` finds a header exactly when the pattern lies somewhere in
      the line. */
  lemma FindHeaderFound(s: string)
    ensures FindHeader(s).Some? <==> exists p: nat :: p < |s| && HeaderAt(s, p)
  {
    var r := HeaderStart(s, 0);
    NoHeaderBefore(s, 0, r);
    if r.Some? {
      MatchAtIff(s, r.value);
    }
  }

  /** The groups reported are those of the pattern laid over from the
      leftmost position where it fits: whatever stands before that `[` is in
      no group. */
  lemma FindHeaderLeftmost(s: string)
    requires FindHeader(s).Some?
    ensures exists p: nat, a: nat, b: nat, c: nat, d: nat, e: nat ::
      ShapeAt(s, p, a, b, c, d, e) &&
      (forall q: nat :: q < p ==> !HeaderAt(s, q)) &&
      FindHeader(s).value == HeaderMatch(s[a..b], s[e], RestText(s, e + 2))
  {
    var p, a, b, c, d, e := FindHeaderAt(s);
    NoHeaderBefore(s, 0, Some(p));
    assert forall q: nat :: q < p ==> !HeaderAt(s, q);
  }

  /** A header that starts the line is the one reported. */
  lemma FindHeaderAtStart(s: string, a: nat, b: nat, c: nat, d: nat, e: nat)
    requires ShapeAt(s, 0, a, b, c, d, e)
    ensures FindHeader(s).Some?
    ensures FindHeader(s).value.timestampText == s[a..b]
    ensures FindHeader(s).value.role == s[e]
    ensures FindHeader(s).value.text == RestText(s, e + 2)
  {
    MatchAtExact(s, 0, a, b, c, d, e);
    assert HeaderStart(s, 0) == Some(0);
  }

  /** In a line without a line terminator, the text group is the rest of
      the line with its leading whitespace cut off. */
  lemma RestTextOfLine(s: string, i: nat)
    requires i <= |s|
    requires forall k :: i <= k < |s| ==> !IsLineTerminator(s[k])
    ensures RestText(s, i) == TrimStart(s[i..])
  {
    var f := SpanEnd(s, i, Whitespace);
    SpanEndExact(s, f, |s|, NonTerminator);
    SpanSpacesIsTrimStart(s, i);
  }

  /** In a line without a line terminator, a text group read from position
      `i` is the rest of the line with its leading whitespace cut off. */
  lemma FindHeaderTextOfLine(s: string, i: nat)
    requires i <= |s|
    requires FindHeader(s).Some? && FindHeader(s).value.text == RestText(s, i)
    requires InLine(s[i..])
    ensures FindHeader(s).value.text == TrimStart(s[i..])
  {
    forall k | i <= k < |s| ensures !IsLineTerminator(s[k]) {
      assert s[k] == s[i..][k - i];
    }
    RestTextOfLine(s, i);
  }
}
