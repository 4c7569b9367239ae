/** The transcript text App.tsx:78 builds from the analysis records and
    hands to parseTranscript: one `[timestamp] Speaker X: text` line per
    record joined with `\n`, read back by the parser of utils/parsingUtils.ts. */
module TranscriptRoundTrip {
  import opened Optional
  import opened Text
  import opened Parsing
  import opened TranscriptProperties
  import opened MachineProperties

  // ---------------------------------------------------------------------
  // Header lines

  /** `${t.speaker}`: the letter an entry's speaker is written as. */
  function SpeakerLetter(s: Speaker): (c: char)
    ensures IsRoleLetter(c) && RoleOf(c) == s
  {
    match s
    case A => 'A'
    case B => 'B'
  }

  /** `[${ts}] Speaker ${r}:` */
  function HeaderText(ts: string, r: char): string {
    "[" + ts + "] Speaker " + [r] + ":"
  }

  /** A header line with its text after one space. */
  function HeaderLine(ts: string, r: char, text: string): string {
    HeaderText(ts, r) + " " + text
  }

  /** The formatted header is laid out as the pattern expects: `[` at 0,
      the timestamp group up to `]`, one space, "Speaker", one space, the
      role letter and the colon; what follows it is `u`. */
  lemma HeaderTextShape(ts: string, r: char, u: string)
    requires ts != [] && IsTimestampText(ts) && IsRoleLetter(r)
    ensures ShapeAt(HeaderText(ts, r) + u, 0, 1, |ts| + 1, |ts| + 1, |ts| + 3, |ts| + 11)
    ensures (HeaderText(ts, r) + u)[1..|ts| + 1] == ts
    ensures (HeaderText(ts, r) + u)[|ts| + 11] == r
    ensures (HeaderText(ts, r) + u)[|ts| + 13..] == u
  {
    var s := HeaderText(ts, r) + u;
    var b := 1 + |ts|;
    var d := b + 2;
    var e := d + 8;
    var w := "] Speaker " + [r] + ":";
    assert s == ("[" + ts) + (w + u);
    assert s[1..b] == ts;
    forall k | 1 <= k < b ensures InClass(TimestampChars, s[k]) {
      assert s[k] == ts[k - 1];
    }
    assert s[b..] == w + u;
    assert s[b] == ']' && s[b + 1] == ' ';
    assert s[d] == 'S' && s[d + 1] == 'p' && s[d + 2] == 'e' && s[d + 3] == 'a';
    assert s[d + 4] == 'k' && s[d + 5] == 'e' && s[d + 6] == 'r' && s[d + 7] == ' ';
    assert s[e] == r && s[e + 1] == ':';
    assert s[e + 2..] == u;
  }

  /** The groups the pattern reports on a header text followed by `u`:
      the timestamp, the role letter and the text read from after the
      colon. */
  lemma HeaderTextGroups(ts: string, r: char, u: string)
    requires ts != [] && IsTimestampText(ts) && IsRoleLetter(r)
    ensures |ts| + 13 <= |HeaderText(ts, r) + u|
    ensures (HeaderText(ts, r) + u)[|ts| + 13..] == u
    ensures FindHeader(HeaderText(ts, r) + u).Some?
    ensures FindHeader(HeaderText(ts, r) + u).value.timestampText == ts
    ensures FindHeader(HeaderText(ts, r) + u).value.role == r
    ensures FindHeader(HeaderText(ts, r) + u).value.text == RestText(HeaderText(ts, r) + u, |ts| + 13)
  {
    var s := HeaderText(ts, r) + u;
    var b := |ts| + 1;
    var e := |ts| + 11;
    HeaderTextShape(ts, r, u);
    FindHeaderAtStart(s, 1, b, b, b + 2, e);
  }

  /** What follows the colon of a header needs no particular form: the
      pattern matches at the `[` and the text group is the rest of the line
      without its leading whitespace. */
  lemma HeaderTextMatch(ts: string, r: char, u: string)
    requires ts != [] && IsTimestampText(ts) && IsRoleLetter(r) && InLine(u)
    ensures FindHeader(HeaderText(ts, r) + u).Some?
    ensures FindHeader(HeaderText(ts, r) + u).value.timestampText == ts
    ensures FindHeader(HeaderText(ts, r) + u).value.role == r
    ensures FindHeader(HeaderText(ts, r) + u).value.text == TrimStart(u)
  {
    HeaderTextGroups(ts, r, u);
    FindHeaderTextOfLine(HeaderText(ts, r) + u, |ts| + 13);
  }

  /** The trimmed header line is the header and its text with trailing
      whitespace cut off; the pattern reads the text back, up to
      surrounding whitespace. */
  lemma HeaderLineParse(ts: string, r: char, text: string)
    requires ts != [] && IsTimestampText(ts) && IsRoleLetter(r) && InLine(text)
    ensures Trim(HeaderLine(ts, r, text)) != ""
    ensures FindHeader(Trim(HeaderLine(ts, r, text))).Some?
    ensures FindHeader(Trim(HeaderLine(ts, r, text))).value.timestampText == ts
    ensures FindHeader(Trim(HeaderLine(ts, r, text))).value.role == r
    ensures Trim(FindHeader(Trim(HeaderLine(ts, r, text))).value.text) == Trim(text)
  {
    var u := TrimEnd(" " + text);
    HeaderLineTrimmed(ts, r, text);
    HeaderTextMatch(ts, r, u);
    TrimOfTrimStart(u);
    TrimOfTrimEnd(" " + text);
    TrimOfLeadingSpace(text);
  }

  /** Trimming a header line only cuts whitespace off the end of its text. */
  lemma HeaderLineTrimmed(ts: string, r: char, text: string)
    requires ts != [] && IsTimestampText(ts) && IsRoleLetter(r) && InLine(text)
    ensures Trim(HeaderLine(ts, r, text)) == HeaderText(ts, r) + TrimEnd(" " + text)
    ensures InLine(TrimEnd(" " + text))
  {
    var h := HeaderText(ts, r);
    var y := " " + text;
    var line := HeaderLine(ts, r, text);
    assert line == h + y;
    TrimStartNoSpace(line);
    TrimEndConcat(h, y);
    assert TrimEnd(h) == h;
    var u := TrimEnd(y);
    assert u == y[..|u|];
    assert Trim(line) == h + u by {
      if AllSpace(y) {
        assert u == [];
        assert h + u == h;
      }
    }
    forall k | 0 <= k < |u| ensures !IsLineTerminator(u[k]) {
      assert u[k] == y[k];
      if k > 0 { assert y[k] == text[k - 1]; }
    }
  }

  // ---------------------------------------------------------------------
  // Records

  /** An analysis record as App.tsx:78 formats it, its timestamp rendered as a plain
      decimal and its text on one line with no code fence. */
  datatype Record = Record(timestamp: Decimal, speaker: Speaker, text: string)

  predicate ValidRecord(x: Record) {
    ValidDecimal(x.timestamp) && InLine(x.text) && NoFence(x.text)
  }

  /** App.tsx:78 for one entry. */
  function FormatRecord(x: Record): string {
    HeaderLine(DecimalText(x.timestamp), SpeakerLetter(x.speaker), x.text)
  }

  function FormattedLines(rs: seq<Record>): (ls: seq<string>)
    ensures |ls| == |rs| && forall k :: 0 <= k < |rs| ==> ls[k] == FormatRecord(rs[k])
  {
    seq(|rs|, k requires 0 <= k < |rs| => FormatRecord(rs[k]))
  }

  /** App.tsx:76-79: the lines joined with `\n`. */
  function FormatTranscript(rs: seq<Record>): string {
    Join(FormattedLines(rs), "\n")
  }

  /** The entry a record stands for. */
  function EntryOf(x: Record): TranscriptEntry
    requires ValidRecord(x)
  {
    TranscriptEntry(x.speaker, Trim(x.text), DecimalValue(x.timestamp))
  }

  /** A formatted record opens the entry it stands for. */
  lemma FormattedOpens(x: Record)
    requires ValidRecord(x)
    ensures OpensEntry(Classify(FormatRecord(x))) && OpenedEntry(Classify(FormatRecord(x))) == EntryOf(x)
  {
    var ts := DecimalText(x.timestamp);
    TimestampPlain(x.timestamp);
    HeaderLineParse(ts, SpeakerLetter(x.speaker), x.text);
  }

  /** A formatted record is a non-blank line without `\n` or code fence. */
  lemma FormattedShape(ts: string, r: char, text: string)
    requires IsTimestampText(ts) && IsRoleLetter(r) && InLine(text) && NoFence(text)
    ensures HeaderLine(ts, r, text) != [] && HeaderLine(ts, r, text)[0] == '['
    ensures '\n' !in HeaderLine(ts, r, text) && NoFence(HeaderLine(ts, r, text))
  {
    var p := HeaderText(ts, r) + " ";
    assert HeaderLine(ts, r, text) == p + text;
    assert '`' !in ts && '\n' !in ts by {
      forall k | 0 <= k < |ts| ensures ts[k] != '`' && ts[k] != '\n' {
        assert IsTimestampChar(ts[k]);
      }
    }
    assert '`' !in p && '\n' !in p;
    assert '\n' !in text by {
      forall k | 0 <= k < |text| ensures text[k] != '\n' {
        assert !IsLineTerminator(text[k]);
      }
    }
    NoFenceConcatNoTick(p, text);
  }

  // ---------------------------------------------------------------------
  // Joined lines

  /** Each line starts with a character other than whitespace. */
  predicate StartsSolid(parts: seq<string>) {
    forall k :: 0 <= k < |parts| ==> parts[k] != [] && !IsSpace(parts[k][0])
  }

  lemma {:induction false} JoinNoFence(parts: seq<string>)
    requires forall k :: 0 <= k < |parts| ==> NoFence(parts[k])
    ensures NoFence(Join(parts, "\n"))
    decreases |parts|
  {
    if |parts| > 1 {
      JoinNoFence(parts[1..]);
      NoFenceGlue(parts[0], '\n', Join(parts[1..], "\n"));
      assert Join(parts, "\n") == parts[0] + ['\n'] + Join(parts[1..], "\n");
    }
  }

  lemma JoinHead(parts: seq<string>)
    requires |parts| >= 1 && parts[0] != []
    ensures Join(parts, "\n") != [] && Join(parts, "\n")[0] == parts[0][0]
  {
  }

  /** Trimming the end of joined lines trims the end of the last one. */
  lemma {:induction false} JoinTrimEnd(parts: seq<string>)
    requires |parts| >= 1 && StartsSolid(parts)
    ensures TrimEnd(Join(parts, "\n")) == Join(parts[..|parts| - 1] + [TrimEnd(parts[|parts| - 1])], "\n")
    decreases |parts|
  {
    var n := |parts|;
    var q := parts[..n - 1] + [TrimEnd(parts[n - 1])];
    if n == 1 {
      assert q == [TrimEnd(parts[0])];
    } else {
      var tail := parts[1..];
      assert StartsSolid(tail) by {
        forall k | 0 <= k < |tail| ensures tail[k] != [] && !IsSpace(tail[k][0]) {
          assert tail[k] == parts[k + 1];
        }
      }
      JoinTrimEnd(tail);
      JoinHead(tail);
      var rest := Join(tail, "\n");
      assert !AllSpace(rest);
      TrimEndConcat(parts[0] + "\n", rest);
      assert Join(parts, "\n") == (parts[0] + "\n") + rest;
      var q' := tail[..|tail| - 1] + [TrimEnd(tail[|tail| - 1])];
      assert q[1..] == q';
      assert q[0] == parts[0];
      assert Join(q, "\n") == q[0] + "\n" + Join(q[1..], "\n");
    }
  }

  /** Lines with trailing whitespace cut off the last one. */
  function TrimLast(parts: seq<string>): (q: seq<string>)
    requires |parts| >= 1
    ensures |q| == |parts| && q[..|q| - 1] == parts[..|parts| - 1]
    ensures q[|q| - 1] == TrimEnd(parts[|parts| - 1])
  {
    parts[..|parts| - 1] + [TrimEnd(parts[|parts| - 1])]
  }

  /** Removing fences from and trimming joined fence-free, solid-starting
      lines trims the end of the last one only. */
  lemma JoinTrimmed(parts: seq<string>)
    requires |parts| >= 1 && StartsSolid(parts)
    requires forall k :: 0 <= k < |parts| ==> NoFence(parts[k])
    ensures Trim(RemoveFences(Join(parts, "\n"))) == Join(TrimLast(parts), "\n")
  {
    var t := Join(parts, "\n");
    JoinNoFence(parts);
    RemoveFencesNoFence(t);
    JoinHead(parts);
    TrimStartNoSpace(t);
    JoinTrimEnd(parts);
  }

  lemma TrimLastInLine(parts: seq<string>)
    requires |parts| >= 1
    requires forall k :: 0 <= k < |parts| ==> '\n' !in parts[k]
    ensures forall k :: 0 <= k < |parts| ==> '\n' !in TrimLast(parts)[k]
  {
    var n := |parts|;
    var q := TrimLast(parts);
    var last := parts[n - 1];
    assert '\n' !in TrimEnd(last) by {
      var m := |TrimEnd(last)|;
      assert TrimEnd(last) == last[..m];
    }
    forall k | 0 <= k < n ensures '\n' !in q[k] {
      if k < n - 1 { assert q[k] == q[..n - 1][k] == parts[k]; }
    }
  }

  /** The parser's lines of joined one-line, fence-free, solid-starting
      texts are those texts, with trailing whitespace cut off the last. */
  lemma JoinLines(parts: seq<string>)
    requires |parts| >= 1 && StartsSolid(parts)
    requires forall k :: 0 <= k < |parts| ==> '\n' !in parts[k] && NoFence(parts[k])
    ensures Lines(Join(parts, "\n")) == TrimLast(parts)
  {
    JoinTrimmed(parts);
    TrimLastInLine(parts);
    SplitJoin(TrimLast(parts), '\n');
  }

  lemma TrimLastTrims(parts: seq<string>)
    requires |parts| >= 1
    ensures forall k :: 0 <= k < |parts| ==> Trim(TrimLast(parts)[k]) == Trim(parts[k])
  {
    var n := |parts|;
    var q := TrimLast(parts);
    forall k | 0 <= k < n ensures Trim(q[k]) == Trim(parts[k]) {
      if k == n - 1 {
        TrimOfTrimEnd(parts[n - 1]);
      } else {
        assert q[k] == q[..n - 1][k] == parts[k];
      }
    }
  }

  /** The parser's lines of joined one-line, fence-free, solid-starting
      texts are those texts, up to surrounding whitespace. */
  lemma LinesOfJoin(parts: seq<string>)
    requires |parts| >= 1 && StartsSolid(parts)
    requires forall k :: 0 <= k < |parts| ==> '\n' !in parts[k] && NoFence(parts[k])
    ensures |Lines(Join(parts, "\n"))| == |parts|
    ensures forall k :: 0 <= k < |parts| ==> Trim(Lines(Join(parts, "\n"))[k]) == Trim(parts[k])
  {
    JoinLines(parts);
    TrimLastTrims(parts);
  }

  // ---------------------------------------------------------------------
  // The round trip

  /** No entries are written as the empty text, which parses to none. */
  lemma EmptyTranscript()
    ensures TranscriptOf("") == []
  {
    assert RemoveFences("") == "";
    assert Trim("") == "";
    assert Lines("") == [""];
  }

  /** A formatted record's line, as the round trip needs it. */
  lemma FormattedLine(x: Record)
    requires ValidRecord(x)
    ensures FormatRecord(x) != [] && !IsSpace(FormatRecord(x)[0])
    ensures '\n' !in FormatRecord(x) && NoFence(FormatRecord(x))
    ensures OpensEntry(Classify(FormatRecord(x))) && OpenedEntry(Classify(FormatRecord(x))) == EntryOf(x)
  {
    TimestampPlain(x.timestamp);
    FormattedShape(DecimalText(x.timestamp), SpeakerLetter(x.speaker), x.text);
    FormattedOpens(x);
  }

  lemma FormattedLinesShape(rs: seq<Record>)
    requires forall k :: 0 <= k < |rs| ==> ValidRecord(rs[k])
    ensures StartsSolid(FormattedLines(rs))
    ensures forall k :: 0 <= k < |rs| ==> '\n' !in FormattedLines(rs)[k] && NoFence(FormattedLines(rs)[k])
    ensures AllOpen(Kinds(FormattedLines(rs)))
    ensures forall k :: 0 <= k < |rs| ==> OpenedEntry(Kinds(FormattedLines(rs))[k]) == EntryOf(rs[k])
  {
    var parts := FormattedLines(rs);
    var kinds := Kinds(parts);
    forall k | 0 <= k < |parts|
      ensures parts[k] != [] && !IsSpace(parts[k][0]) && '\n' !in parts[k] && NoFence(parts[k])
      ensures OpensEntry(kinds[k]) && OpenedEntry(kinds[k]) == EntryOf(rs[k])
    {
      FormattedLine(rs[k]);
    }
  }

  /** Parsing the text App.tsx:78 builds from records gives those records
      back: the same speakers, the texts trimmed, the timestamps' values. */
  lemma RoundTrip(rs: seq<Record>)
    requires forall k :: 0 <= k < |rs| ==> ValidRecord(rs[k])
    ensures |TranscriptOf(FormatTranscript(rs))| == |rs|
    ensures forall k :: 0 <= k < |rs| ==> TranscriptOf(FormatTranscript(rs))[k] == EntryOf(rs[k])
  {
    var parts := FormattedLines(rs);
    var t := FormatTranscript(rs);
    if rs == [] {
      EmptyTranscript();
    } else {
      FormattedLinesShape(rs);
      LinesOfJoin(parts);
      KindsTrimEquivalent(Lines(t), parts);
      RunAllOpen(Kinds(parts));
      forall k | 0 <= k < |rs| ensures TranscriptOf(t)[k] == EntryOf(rs[k]) {
        OpenedEntriesAt(Kinds(parts), k);
        TrimIdempotent(rs[k].text);
      }
    }
  }

  // ---------------------------------------------------------------------
  // A header whose timestamp is not a number

  /** `[..] A: text` has the header shape, but its timestamp parses to NaN. */
  lemma NaNHeaderLine(r: char, text: string)
    requires IsRoleLetter(r) && InLine(text)
    ensures NaNHeader(Classify(HeaderLine("..", r, text)))
  {
    DotsNaN();
    HeaderLineParse("..", r, text);
    var t := Trim(HeaderLine("..", r, text));
    assert Classify(HeaderLine("..", r, text)) == KindOf(t, FindHeader(t));
  }

  /** `..` matches the timestamp group but is not a number. */
  lemma DotsNaN()
    ensures IsTimestampText("..") && TimestampSeconds("..").None?
  {
    assert ':' !in "..";
    TimestampWithoutColon("..");
    ParseFloatNaN("..");
  }

  /** A formatted record followed by a header line with a NaN timestamp. */
  function NaNAfterRecord(x: Record, r: char, text: string): string {
    Join([FormatRecord(x), HeaderLine("..", r, text)], "\n")
  }

  /** Two solid-starting one-line fence-free texts joined by `\n` are
      classified as those two lines. */
  lemma KindsOfPair(a: string, b: string)
    requires a != [] && !IsSpace(a[0]) && '\n' !in a && NoFence(a)
    requires b != [] && !IsSpace(b[0]) && '\n' !in b && NoFence(b)
    ensures Kinds(Lines(Join([a, b], "\n"))) == [Classify(a), Classify(b)]
  {
    var parts := [a, b];
    assert parts[0] == a && parts[1] == b;
    LinesOfJoin(parts);
    KindsTrimEquivalent(Lines(Join(parts, "\n")), parts);
    assert Kinds(parts) == [Classify(a), Classify(b)];
  }

  /** The parser classifies the two lines of `NaNAfterRecord` one by one. */
  lemma NaNAfterRecordKinds(x: Record, r: char, text: string)
    requires ValidRecord(x) && IsRoleLetter(r) && InLine(text) && NoFence(text)
    ensures Kinds(Lines(NaNAfterRecord(x, r, text))) == [Classify(FormatRecord(x)), Classify(HeaderLine("..", r, text))]
  {
    var a, b := FormatRecord(x), HeaderLine("..", r, text);
    assert a != [] && !IsSpace(a[0]) && '\n' !in a && NoFence(a) by {
      FormattedLine(x);
    }
    assert b != [] && !IsSpace(b[0]) && '\n' !in b && NoFence(b) by {
      FormattedShape("..", r, text);
    }
    KindsOfPair(a, b);
  }

  /** parsingUtils.ts:47-50 push the open entry before the NaN check at
      parsingUtils.ts:62-67 extends it, so the record's entry comes back
      twice, both copies carrying the header line as a continuation. */
  lemma NaNHeaderDuplicates(x: Record, r: char, text: string)
    requires ValidRecord(x) && IsRoleLetter(r) && InLine(text) && NoFence(text)
    ensures |TranscriptOf(NaNAfterRecord(x, r, text))| == 2
    ensures TranscriptOf(NaNAfterRecord(x, r, text))[0] == TranscriptOf(NaNAfterRecord(x, r, text))[1]
    ensures TranscriptOf(NaNAfterRecord(x, r, text))[0].speaker == x.speaker
    ensures TranscriptOf(NaNAfterRecord(x, r, text))[0].timestamp == DecimalValue(x.timestamp)
  {
    var k1, k2 := Classify(FormatRecord(x)), Classify(HeaderLine("..", r, text));
    FormattedLine(x);
    NaNHeaderLine(r, text);
    NaNAfterRecordKinds(x, r, text);
    RunOpenThenNaN(k1, k2);
  }
}
