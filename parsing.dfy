/** The transcript line parser of utils/parsingUtils.ts: `parseTimestamp`
    turns `ss`, `mm:ss` or `hh:mm:ss` text into seconds, and `parseTranscript`
    turns model output made of `[timestamp] Speaker X: text` header lines,
    continuation lines and preamble into an ordered list of entries.

    `NaN` is `None`. Timestamps and seconds are exact reals: no claim is made
    about IEEE rounding. */
module Parsing {
  import opened Optional
  import opened Text
  import opened Seqs

  datatype Speaker = A | B

  /** types.ts `TranscriptEntry`. */
  datatype TranscriptEntry = TranscriptEntry(speaker: Speaker, text: string, timestamp: real)

  // ---------------------------------------------------------------------
  // Numbers

  /** The characters of the header's timestamp group `[\d:.]`. */
  predicate IsTimestampChar(c: char) {
    IsDigit(c) || c == ':' || c == '.'
  }

  /** The characters left in one colon-separated segment of a timestamp. */
  predicate IsNumberChar(c: char) {
    IsDigit(c) || c == '.'
  }

  predicate IsNumberText(s: string) {
    forall k :: 0 <= k < |s| ==> IsNumberChar(s[k])
  }

  /** The value of the digits after a decimal point, 0.d1d2...dn: their
      integer value over ten to the n. */
  function FractionValue(s: string): (v: real)
    requires forall k :: 0 <= k < |s| ==> IsDigit(s[k])
    ensures v >= 0.0
  {
    DigitsValue(s) as real / Pow10(|s|) as real
  }

  /** The run of digits from `i` is all digits. */
  lemma DigitRun(s: string, i: nat)
    requires i <= |s|
    ensures forall k :: 0 <= k < |s[i..SpanEnd(s, i, Digit)]| ==> IsDigit(s[i..SpanEnd(s, i, Digit)][k])
  {
    var j := SpanEnd(s, i, Digit);
    SpanEndRun(s, i, Digit);
    forall k | 0 <= k < |s[i..j]| ensures IsDigit(s[i..j][k]) {
      assert s[i..j][k] == s[i + k];
    }
  }

  /** `parseFloat` on a string of digits and dots: the value of its longest
      prefix of the form `digits [ "." digits ]` that holds at least one digit,
      or NaN when there is none. */
  function ParseFloat(s: string): (r: Option<real>)
    requires IsNumberText(s)
    ensures r.Some? ==> r.value >= 0.0
  {
    var i := SpanEnd(s, 0, Digit);
    DigitRun(s, 0);
    assert s[..i] == s[0..i];
    if i < |s| && s[i] == '.' then
      var j := SpanEnd(s, i + 1, Digit);
      DigitRun(s, i + 1);
      if i == 0 && j == i + 1 then None
      else Some(DigitsValue(s[..i]) as real + FractionValue(s[i + 1..j]))
    else if i == 0 then None
    else Some(DigitsValue(s[..i]) as real)
  }

  /** JavaScript truthiness of a number: NaN and 0 are falsy. */
  predicate Truthy(x: Option<real>) {
    x.Some? && x.value != 0.0
  }

  /** What the k-th segment from the right adds: its value, or nothing when it
      is absent, NaN or zero. */
  function SegmentValue(parts: seq<string>, k: nat): (v: real)
    requires forall j :: 0 <= j < |parts| ==> IsNumberText(parts[j])
    ensures v >= 0.0
  {
    if k < |parts| then ParseFloat(parts[|parts| - 1 - k]).GetOr(0.0) else 0.0
  }

  predicate IsTimestampText(s: string) {
    forall k :: 0 <= k < |s| ==> IsTimestampChar(s[k])
  }

  /** `split(':')` of a timestamp: segments of digits and dots. */
  function Segments(s: string): (segs: seq<string>)
    requires IsTimestampText(s)
    ensures |segs| >= 1
    ensures forall j :: 0 <= j < |segs| ==> IsNumberText(segs[j])
  {
    SegmentsAreNumbers(s);
    Split(s, ':')
  }

  lemma SegmentsAreNumbers(s: string)
    requires IsTimestampText(s)
    ensures forall j :: 0 <= j < |Split(s, ':')| ==> IsNumberText(Split(s, ':')[j])
  {
    var segs := Split(s, ':');
    SplitKeeps(s, ':', c => IsNumberChar(c));
    assert forall j, k :: 0 <= j < |segs| && 0 <= k < |segs[j]| ==> IsNumberChar(segs[j][k]);
  }

  /** Seconds, minutes and hours read from the right of the segments. */
  function ColonSeconds(segs: seq<string>): (v: real)
    requires forall j :: 0 <= j < |segs| ==> IsNumberText(segs[j])
    ensures v >= 0.0
  {
    SegmentValue(segs, 0) + 60.0 * SegmentValue(segs, 1) + 3600.0 * SegmentValue(segs, 2)
  }

  /** The value of an already trimmed timestamp: with a colon, the last
      segment counts as seconds, the one before as minutes and the one before
      that as hours, anything further left being ignored; without a colon,
      `parseFloat`. */
  function TimestampValue(cleaned: string): (r: Option<real>)
    requires IsTimestampText(cleaned)
    ensures ':' in cleaned ==> r.Some?
    ensures r.Some? ==> r.value >= 0.0
  {
    if ':' in cleaned then Some(ColonSeconds(Segments(cleaned))) else ParseFloat(cleaned)
  }

  /** Seconds denoted by a timestamp group; trimming changes nothing, as the
      group holds no whitespace. */
  function TimestampSeconds(s: string): (r: Option<real>)
    requires IsTimestampText(s)
    ensures ':' in s ==> r.Some?
    ensures r.Some? ==> r.value >= 0.0
  {
    TrimNoSpace(s);
    TimestampValue(Trim(s))
  }

  /** parsingUtils.ts:8-19, accumulating `seconds` as the source does. */
  method ParseTimestamp(timestampStr: string) returns (seconds: Option<real>)
    requires IsTimestampText(timestampStr)
    ensures seconds == TimestampSeconds(timestampStr)
  {
    TrimNoSpace(timestampStr);
    var cleanedStr := Trim(timestampStr);
    if ':' in cleanedStr {
      var segs := Segments(cleanedStr);
      // the segments from the right: [ss.ms, mm, hh]
      var total := 0.0;
      if |segs| > 0 {
        var sec := ParseFloat(segs[|segs| - 1]);
        if Truthy(sec) { total := total + sec.value; }
      }
      assert total == SegmentValue(segs, 0);
      if |segs| > 1 {
        var min := ParseFloat(segs[|segs| - 2]);
        if Truthy(min) { total := total + min.value * 60.0; }
      }
      assert total == SegmentValue(segs, 0) + 60.0 * SegmentValue(segs, 1);
      if |segs| > 2 {
        var hrs := ParseFloat(segs[|segs| - 3]);
        if Truthy(hrs) { total := total + hrs.value * 3600.0; }
      }
      assert total == ColonSeconds(segs);
      return Some(total);
    }
    return ParseFloat(cleanedStr);
  }

  // ---------------------------------------------------------------------
  // The header pattern /\[\s*([\d:.]+)\s*]\s+Speaker\s+([AB]):\s*(.*)/i

  /** The three capture groups of a header match; `role` is the letter as written. */
  datatype HeaderMatch = HeaderMatch(timestampText: string, role: char, text: string)

  predicate IsRoleLetter(c: char) {
    c == 'A' || c == 'a' || c == 'B' || c == 'b'
  }

  /** `speaker.toUpperCase()` of the role group. */
  function RoleOf(c: char): Speaker {
    if UpperChar(c) == 'A' then A else B
  }

  /** Where the groups of a header match lie in the line: the timestamp
      group is `s[a..b]`, the role letter `s[e]`, the text group `s[f..g]`. */
  datatype HeaderSpan = HeaderSpan(a: nat, b: nat, e: nat, f: nat, g: nat)

  /** Group 3 `\s*(.*)` after the colon at `e + 1`: skip whitespace, then
      take everything up to the next line terminator. */
  function GroupsFrom(s: string, a: nat, b: nat, e: nat): (m: HeaderSpan)
    requires e + 2 <= |s|
    ensures m.a == a && m.b == b && m.e == e && e + 2 <= m.f <= m.g <= |s|
  {
    var f := SpanEnd(s, e + 2, Whitespace);
    HeaderSpan(a, b, e, f, SpanEnd(s, f, NonTerminator))
  }

  /** What every match satisfies: a non-empty timestamp group of `[\d:.]`,
      a role letter followed by `:`, and a text group after them. */
  predicate WellPlaced(s: string, m: HeaderSpan) {
    m.a < m.b <= m.e && m.e + 2 <= m.f <= m.g <= |s| &&
    (forall k :: m.a <= k < m.b ==> IsTimestampChar(s[k])) &&
    IsRoleLetter(s[m.e])
  }

  /** The pattern matched with its first character at position `p`. Every
      quantifier in it is followed by a character it cannot consume, so the
      greedy runs below are the only way the pattern can match. */
  function MatchAt(s: string, p: nat): (r: Option<HeaderSpan>)
    ensures r.Some? ==> WellPlaced(s, r.value)
  {
    if p < |s| && s[p] == '[' then TimestampPart(s, p + 1) else None
  }

  /** `\s*([\d:.]+)` from position `i`, then the rest of the pattern. */
  function TimestampPart(s: string, i: nat): (r: Option<HeaderSpan>)
    requires i <= |s|
    ensures r.Some? ==> WellPlaced(s, r.value)
  {
    var a := SpanEnd(s, i, Whitespace);
    var b := SpanEnd(s, a, TimestampChars);
    SpanEndRun(s, a, TimestampChars);
    if b == a then None else ClosePart(s, a, b)
  }

  /** `\s*]` after the timestamp group `s[a..b]`, then the rest. */
  function ClosePart(s: string, a: nat, b: nat): (r: Option<HeaderSpan>)
    requires b <= |s|
    ensures r.Some? ==> r.value.a == a && r.value.b == b && b < r.value.e && r.value.e + 2 <= r.value.f
    ensures r.Some? ==> r.value.f <= r.value.g <= |s| && IsRoleLetter(s[r.value.e])
  {
    var c := SpanEnd(s, b, Whitespace);
    if c < |s| && s[c] == ']' then SpeakerPart(s, a, b, c + 1) else None
  }

  /** The letter with lower case `lo` and upper case `up` at position `k`. */
  predicate LetterAt(s: string, k: nat, lo: char, up: char)
    requires k < |s|
  {
    s[k] == lo || s[k] == up
  }

  /** "speaker" in any case at position `d`. */
  predicate SpeakerWordAt(s: string, d: nat) {
    d + 7 <= |s| &&
    LetterAt(s, d, 's', 'S') && LetterAt(s, d + 1, 'p', 'P') && LetterAt(s, d + 2, 'e', 'E') &&
    LetterAt(s, d + 3, 'a', 'A') && LetterAt(s, d + 4, 'k', 'K') && LetterAt(s, d + 5, 'e', 'E') &&
    LetterAt(s, d + 6, 'r', 'R')
  }

  /** `\s+Speaker` from position `i`, then the rest. */
  function SpeakerPart(s: string, a: nat, b: nat, i: nat): (r: Option<HeaderSpan>)
    requires i <= |s|
    ensures r.Some? ==> r.value.a == a && r.value.b == b && i < r.value.e && r.value.e + 2 <= r.value.f
    ensures r.Some? ==> r.value.f <= r.value.g <= |s| && IsRoleLetter(s[r.value.e])
  {
    var d := SpanEnd(s, i, Whitespace);
    if d > i && SpeakerWordAt(s, d) then RolePart(s, a, b, d + 7) else None
  }

  /** `\s+([AB]):\s*(.*)` from position `i`. */
  function RolePart(s: string, a: nat, b: nat, i: nat): (r: Option<HeaderSpan>)
    requires i <= |s|
    ensures r.Some? ==> r.value.a == a && r.value.b == b && i < r.value.e && r.value.e + 2 <= r.value.f
    ensures r.Some? ==> r.value.f <= r.value.g <= |s| && IsRoleLetter(s[r.value.e])
  {
    var e := SpanEnd(s, i, Whitespace);
    if e > i && e + 1 < |s| && IsRoleLetter(s[e]) && s[e + 1] == ':' then Some(GroupsFrom(s, a, b, e))
    else None
  }

  /** The leftmost position at or after `p` where the pattern matches. */
  function HeaderStart(s: string, p: nat): (r: Option<nat>)
    requires p <= |s|
    ensures r.Some? ==> p <= r.value < |s| && MatchAt(s, r.value).Some?
    ensures forall q :: p <= q < |s| && (r.None? || q < r.value) ==> MatchAt(s, q).None?
    decreases |s| - p
  {
    if p == |s| then None
    else if MatchAt(s, p).Some? then Some(p)
    else HeaderStart(s, p + 1)
  }

  /** The capture groups a match stands for. */
  function GroupsOf(s: string, m: HeaderSpan): (h: HeaderMatch)
    requires WellPlaced(s, m)
    ensures |h.timestampText| > 0 && IsTimestampText(h.timestampText) && IsRoleLetter(h.role)
  {
    HeaderMatch(s[m.a..m.b], s[m.e], s[m.f..m.g])
  }

  /** `line.match(entryStartRegex)`: the groups of the leftmost match, if any. */
  function FindHeader(line: string): (r: Option<HeaderMatch>)
    ensures r.Some? ==> |r.value.timestampText| > 0 && IsTimestampText(r.value.timestampText)
    ensures r.Some? ==> IsRoleLetter(r.value.role)
  {
    match HeaderStart(line, 0)
    case None => None
    case Some(p) => Some(GroupsOf(line, MatchAt(line, p).value))
  }

  // ---------------------------------------------------------------------
  // The line state machine, with the aliasing of `currentEntry` made explicit

  /** The parser between two lines. `entries` holds `done` followed by
      `aliases` more references to the open entry `current`: those copies are
      still the same object, so they will show its final text. */
  datatype ParseState = ParseState(done: seq<TranscriptEntry>, aliases: nat, current: Option<TranscriptEntry>)

  const Initial := ParseState([], 0, None)

  function Copies(e: TranscriptEntry, n: nat): (r: seq<TranscriptEntry>)
    ensures |r| == n && forall k :: 0 <= k < n ==> r[k] == e
  {
    seq(n, _ => e)
  }

  /** `currentEntry.text += \n + trimmedLine`. */
  function Continued(e: TranscriptEntry, trimmedLine: string): TranscriptEntry {
    e.(text := e.text + "\n" + trimmedLine)
  }

  /** What the contents of `entries` become once `st.current` is no longer
      the open entry: the references to it are frozen at its current value. */
  function Frozen(st: ParseState): seq<TranscriptEntry> {
    if st.current.Some? then st.done + Copies(st.current.value, st.aliases + 1) else st.done
  }

  /** A non-blank line that is not an accepted header: appended to the open
      entry, if any. */
  function Extend(st: ParseState, trimmedLine: string): ParseState {
    if st.current.Some? then st.(current := Some(Continued(st.current.value, trimmedLine))) else st
  }

  /** A header line with a valid timestamp: the open entry is frozen and `e`
      becomes the open entry. */
  function Open(st: ParseState, e: TranscriptEntry): ParseState {
    ParseState(Frozen(st), 0, Some(e))
  }

  /** A header line whose timestamp is NaN, while an entry is open: the entry
      is pushed once more, and then extended through the same reference. */
  function Alias(st: ParseState, trimmedLine: string): ParseState
    requires st.current.Some?
  {
    ParseState(st.done, st.aliases + 1, Some(Continued(st.current.value, trimmedLine)))
  }

  /** What the loop body makes of one line: skipped when blank, a
      continuation when the header pattern is not found in it, a header with
      its groups and the value its timestamp parses to otherwise. */
  datatype LineKind =
    | Blank
    | Continuation(trimmedLine: string)
    | Header(trimmedLine: string, header: HeaderMatch, timestamp: Option<real>)

  /** A non-blank trimmed line, given what the header pattern found in it. */
  function KindOf(trimmedLine: string, m: Option<HeaderMatch>): LineKind
    requires m.Some? ==> IsTimestampText(m.value.timestampText)
  {
    match m
    case None => Continuation(trimmedLine)
    case Some(h) => Header(trimmedLine, h, TimestampSeconds(h.timestampText))
  }

  /** parsingUtils.ts:43-45: a trimmed line is skipped when blank and
      matched against the header pattern otherwise. */
  function TrimmedKind(trimmedLine: string): LineKind {
    if trimmedLine == "" then Blank else KindOf(trimmedLine, FindHeader(trimmedLine))
  }

  /** parsingUtils.ts:42-45: the line is trimmed first. */
  function Classify(line: string): LineKind {
    TrimmedKind(Trim(line))
  }

  function Kinds(lines: seq<string>): (ks: seq<LineKind>)
    ensures |ks| == |lines| && forall k :: 0 <= k < |lines| ==> ks[k] == Classify(lines[k])
  {
    Map(Classify, lines)
  }

  /** A header line, given the value its timestamp group parses to. */
  function StepHeader(st: ParseState, trimmedLine: string, h: HeaderMatch, timestamp: Option<real>): ParseState {
    if timestamp.Some? then Open(st, TranscriptEntry(RoleOf(h.role), Trim(h.text), timestamp.value))
    else if st.current.Some? then Alias(st, trimmedLine)
    else st
  }

  /** One iteration of the loop at parsingUtils.ts:41-75. */
  function Step(st: ParseState, kind: LineKind): ParseState {
    match kind
    case Blank => st
    case Continuation(trimmedLine) => Extend(st, trimmedLine)
    case Header(trimmedLine, h, timestamp) => StepHeader(st, trimmedLine, h, timestamp)
  }

  /** The loop run over the lines of kinds `kinds` from state `st`. */
  function Run(st: ParseState, kinds: seq<LineKind>): ParseState
    decreases |kinds|
  {
    if kinds == [] then st else Step(Run(st, kinds[..|kinds| - 1]), kinds[|kinds| - 1])
  }

  /** parsingUtils.ts:30-33: fences removed, the text trimmed, split on `\n`. */
  function Lines(text: string): seq<string> {
    Split(Trim(RemoveFences(text)), '\n')
  }

  /** `entries` after the final push at parsingUtils.ts:78-80. */
  function RawEntries(text: string): seq<TranscriptEntry> {
    Frozen(Run(Initial, Kinds(Lines(text))))
  }

  function TrimmedEntry(e: TranscriptEntry): TranscriptEntry {
    e.(text := Trim(e.text))
  }

  function TrimmedEntries(raw: seq<TranscriptEntry>): (r: seq<TranscriptEntry>)
    ensures |r| == |raw| && forall k :: 0 <= k < |raw| ==> r[k] == TrimmedEntry(raw[k])
  {
    seq(|raw|, k requires 0 <= k < |raw| => TrimmedEntry(raw[k]))
  }

  /** The value `parseTranscript(text)` returns. */
  function TranscriptOf(text: string): seq<TranscriptEntry> {
    TrimmedEntries(RawEntries(text))
  }

  // ---------------------------------------------------------------------
  // The source's loop, over entry objects

  /** A `TranscriptEntry` object: the parser pushes it and keeps mutating it. */
  class EntryRef {
    var speaker: Speaker
    var text: string
    var timestamp: real

    constructor (speaker: Speaker, text: string, timestamp: real)
      ensures this.speaker == speaker && this.text == text && this.timestamp == timestamp
    {
      this.speaker := speaker;
      this.text := text;
      this.timestamp := timestamp;
    }

    function Value(): TranscriptEntry
      reads this
    {
      TranscriptEntry(speaker, text, timestamp)
    }
  }

  /** The object graph `entries`/`currentEntry` stands for the state `st`:
      the first `|st.done|` references are distinct from the open entry and
      hold `st.done`, every later one IS the open entry. */
  ghost predicate Mirrors(entries: seq<EntryRef>, currentEntry: EntryRef?, st: ParseState)
    reads set k | 0 <= k < |entries| :: entries[k]
    reads currentEntry
  {
    && |entries| == |st.done| + st.aliases
    && (currentEntry == null <==> st.current.None?)
    && (currentEntry == null ==> st.aliases == 0)
    && (currentEntry != null ==> currentEntry.Value() == st.current.value)
    && (forall k :: 0 <= k < |st.done| ==> entries[k] != currentEntry && entries[k].Value() == st.done[k])
    && (forall k :: |st.done| <= k < |entries| ==> entries[k] == currentEntry)
  }

  /** Pushing the open entry object gives the frozen contents. */
  lemma PushMirrors(entries: seq<EntryRef>, currentEntry: EntryRef?, st: ParseState)
    requires Mirrors(entries, currentEntry, st)
    ensures var pushed := if currentEntry != null then entries + [currentEntry] else entries;
      |pushed| == |Frozen(st)| && forall k :: 0 <= k < |pushed| ==> pushed[k].Value() == Frozen(st)[k]
  {
  }

  /** `currentEntry.text += '\n' + trimmedLine` on the open entry object. */
  method AppendLine(entries: seq<EntryRef>, currentEntry: EntryRef, ghost st: ParseState, trimmedLine: string)
    requires Mirrors(entries, currentEntry, st)
    modifies currentEntry
    ensures Mirrors(entries, currentEntry, Extend(st, trimmedLine))
  {
    currentEntry.text := currentEntry.text + "\n" + trimmedLine;
  }

  /** A new open entry object over the pushed references stands for `Open`. */
  lemma OpenMirrors(pushed: seq<EntryRef>, r: EntryRef, st: ParseState, e: TranscriptEntry)
    requires |pushed| == |Frozen(st)| && forall k :: 0 <= k < |pushed| ==> pushed[k].Value() == Frozen(st)[k]
    requires r.Value() == e && forall k :: 0 <= k < |pushed| ==> pushed[k] != r
    ensures Mirrors(pushed, r, Open(st, e))
  {
  }

  /** Pushing the open entry object once more adds one alias. */
  lemma AliasMirrors(entries: seq<EntryRef>, r: EntryRef, st: ParseState)
    requires Mirrors(entries, r, st)
    ensures Mirrors(entries + [r], r, ParseState(st.done, st.aliases + 1, st.current))
  {
  }

  /** A header line (parsingUtils.ts:48-67), given the value its timestamp
      parsed to: the open entry is pushed whether or not that value is NaN. */
  method ApplyHeader(entries: seq<EntryRef>, currentEntry: EntryRef?, ghost st: ParseState,
                     trimmedLine: string, h: HeaderMatch, timestamp: Option<real>)
    returns (entries': seq<EntryRef>, currentEntry': EntryRef?)
    requires Mirrors(entries, currentEntry, st)
    modifies currentEntry
    ensures currentEntry' == currentEntry || fresh(currentEntry')
    ensures Mirrors(entries', currentEntry', StepHeader(st, trimmedLine, h, timestamp))
  {
    PushMirrors(entries, currentEntry, st);
    entries', currentEntry' := entries, currentEntry;
    if currentEntry != null {
      entries' := entries + [currentEntry];
    }
    if timestamp.Some? {
      var e := TranscriptEntry(RoleOf(h.role), Trim(h.text), timestamp.value);
      currentEntry' := new EntryRef(e.speaker, e.text, e.timestamp);
      OpenMirrors(entries', currentEntry', st, e);
    } else if currentEntry != null {
      AliasMirrors(entries, currentEntry, st);
      AppendLine(entries', currentEntry, ParseState(st.done, st.aliases + 1, st.current), trimmedLine);
    }
  }

  /** The loop body at parsingUtils.ts:46-73, for a non-blank trimmed line
      and what the header pattern found in it. The timestamp is parsed before
      the push rather than after it; both are free of side effects. */
  method ApplyMatch(entries: seq<EntryRef>, currentEntry: EntryRef?, ghost st: ParseState,
                    trimmedLine: string, m: Option<HeaderMatch>)
    returns (entries': seq<EntryRef>, currentEntry': EntryRef?)
    requires m.Some? ==> IsTimestampText(m.value.timestampText)
    requires Mirrors(entries, currentEntry, st)
    modifies currentEntry
    ensures currentEntry' == currentEntry || fresh(currentEntry')
    ensures Mirrors(entries', currentEntry', Step(st, KindOf(trimmedLine, m)))
  {
    entries', currentEntry' := entries, currentEntry;
    if m.Some? {
      var timestamp := ParseTimestamp(m.value.timestampText);
      entries', currentEntry' := ApplyHeader(entries, currentEntry, st, trimmedLine, m.value, timestamp);
    } else if currentEntry != null {
      AppendLine(entries, currentEntry, st, trimmedLine);
    }
  }

  /** One pass of the loop body at parsingUtils.ts:42-74: trim the line,
      skip it when blank, otherwise match the header pattern and act on it. */
  method ApplyLine(entries: seq<EntryRef>, currentEntry: EntryRef?, ghost st: ParseState, line: string)
    returns (entries': seq<EntryRef>, currentEntry': EntryRef?)
    requires Mirrors(entries, currentEntry, st)
    modifies currentEntry
    ensures currentEntry' == currentEntry || fresh(currentEntry')
    ensures Mirrors(entries', currentEntry', Step(st, Classify(line)))
  {
    entries', currentEntry' := entries, currentEntry;
    var trimmedLine := Trim(line);
    if trimmedLine != "" {
      var m := FindHeader(trimmedLine);
      entries', currentEntry' := ApplyMatch(entries, currentEntry, st, trimmedLine, m);
    }
  }

  lemma RunSnoc(kinds: seq<LineKind>, i: nat)
    requires i < |kinds|
    ensures Run(Initial, kinds[..i + 1]) == Step(Run(Initial, kinds[..i]), kinds[i])
  {
    assert kinds[..i + 1][..i] == kinds[..i];
  }

  /** One pass of the loop at parsingUtils.ts:41-75: the objects follow one more step of the state machine. */
  method RunLine(lines: seq<string>, i: nat, entries: seq<EntryRef>, currentEntry: EntryRef?, ghost st: ParseState)
    returns (entries': seq<EntryRef>, currentEntry': EntryRef?, ghost st': ParseState)
    requires i < |lines|
    requires st == Run(Initial, Kinds(lines)[..i])
    requires Mirrors(entries, currentEntry, st)
    modifies currentEntry
    ensures st' == Run(Initial, Kinds(lines)[..i + 1])
    ensures Mirrors(entries', currentEntry', st')
    ensures currentEntry' == currentEntry || fresh(currentEntry')
  {
    RunSnoc(Kinds(lines), i);
    entries', currentEntry' := ApplyLine(entries, currentEntry, st, lines[i]);
    st' := Step(st, Kinds(lines)[i]);
  }

  /** The loop at parsingUtils.ts:41-75 over the object graph. */
  method RunLines(lines: seq<string>) returns (entries: seq<EntryRef>, currentEntry: EntryRef?)
    ensures Mirrors(entries, currentEntry, Run(Initial, Kinds(lines)))
  {
    entries := [];
    currentEntry := null;
    ghost var st := Initial;
    for i := 0 to |lines|
      invariant st == Run(Initial, Kinds(lines)[..i])
      invariant Mirrors(entries, currentEntry, st)
      invariant currentEntry == null || fresh(currentEntry)
    {
      entries, currentEntry, st := RunLine(lines, i, entries, currentEntry, st);
    }
    assert Kinds(lines)[..|lines|] == Kinds(lines);
  }

  /** The final `map` at parsingUtils.ts:82-84: trimmed copies of the
      objects' values. */
  method TrimAll(entries: seq<EntryRef>, ghost raw: seq<TranscriptEntry>) returns (result: seq<TranscriptEntry>)
    requires |entries| == |raw|
    requires forall k :: 0 <= k < |entries| ==> entries[k].Value() == raw[k]
    ensures result == TrimmedEntries(raw)
  {
    result := [];
    for k := 0 to |entries|
      invariant |result| == k
      invariant forall j :: 0 <= j < k ==> result[j] == TrimmedEntry(raw[j])
    {
      result := result + [TranscriptEntry(entries[k].speaker, Trim(entries[k].text), entries[k].timestamp)];
    }
  }

  /** parsingUtils.ts:28-84, with `entries` a sequence of references. */
  method ParseTranscript(text: string) returns (result: seq<TranscriptEntry>)
    ensures result == TranscriptOf(text)
  {
    var cleanedText := Trim(RemoveFences(text));
    var lines := Split(cleanedText, '\n');
    var entries, currentEntry := RunLines(lines);
    ghost var st := Run(Initial, Kinds(lines));
    PushMirrors(entries, currentEntry, st);
    if currentEntry != null {
      entries := entries + [currentEntry];
    }
    result := TrimAll(entries, Frozen(st));
  }
}
