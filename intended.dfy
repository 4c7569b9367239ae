/** The line state machine of utils/parsingUtils.ts:41-80 with its NaN
    branch as the comment at parsingUtils.ts:63-64 describes it: a header
    whose timestamp is NaN continues the open entry. As written, the open
    entry has already been pushed at parsingUtils.ts:47-50 by then, so it
    ends up in `entries` twice (`MachineProperties.NaNHeaderAliases`). Here
    the push happens only for a header whose timestamp parses. */
module IntendedParsing {
  import opened Optional
  import opened Text
  import opened Parsing
  import opened MachineProperties
  import opened TranscriptProperties
  import opened TranscriptRoundTrip

  /** One iteration, with the NaN header read as a continuation line. */
  function StepIntended(st: ParseState, kind: LineKind): ParseState {
    if NaNHeader(kind) then Extend(st, kind.trimmedLine) else Step(st, kind)
  }

  function RunIntended(st: ParseState, kinds: seq<LineKind>): ParseState
    decreases |kinds|
  {
    if kinds == [] then st else StepIntended(RunIntended(st, kinds[..|kinds| - 1]), kinds[|kinds| - 1])
  }

  /** What `parseTranscript(text)` returns with the NaN branch corrected. */
  function TranscriptIntended(text: string): seq<TranscriptEntry> {
    TrimmedEntries(Frozen(RunIntended(Initial, Kinds(Lines(text)))))
  }

  /** With the correction no reference is ever pushed twice, and the entries
      are the opening lines, one each and in order, whatever the input. */
  lemma {:induction false} RunIntendedKeys(kinds: seq<LineKind>)
    ensures RunIntended(Initial, kinds).aliases == 0
    ensures Keys(Frozen(RunIntended(Initial, kinds))) == HeaderKeys(kinds)
    decreases |kinds|
  {
    if kinds != [] {
      var init, last := kinds[..|kinds| - 1], kinds[|kinds| - 1];
      RunIntendedKeys(init);
      var st := RunIntended(Initial, init);
      if OpensEntry(last) {
        KeysOfOpen(st, OpenedEntry(last));
      } else if last.Continuation? || NaNHeader(last) {
        KeysOfExtend(st, last.trimmedLine);
      }
    }
  }

  lemma TranscriptIntendedKeys(text: string)
    ensures Keys(TranscriptIntended(text)) == HeaderKeys(Kinds(Lines(text)))
  {
    RunIntendedKeys(Kinds(Lines(text)));
    KeysOfTrimmed(Frozen(RunIntended(Initial, Kinds(Lines(text)))));
  }

  /** Without a NaN header the correction changes nothing. */
  lemma {:induction false} RunIntendedAgrees(st: ParseState, kinds: seq<LineKind>)
    requires NoNaNHeader(kinds)
    ensures RunIntended(st, kinds) == Run(st, kinds)
    decreases |kinds|
  {
    if kinds != [] {
      var init := kinds[..|kinds| - 1];
      assert NoNaNHeader(init) by {
        forall k | 0 <= k < |init| ensures !NaNHeader(init[k]) {
          assert init[k] == kinds[k];
        }
      }
      assert !NaNHeader(kinds[|kinds| - 1]);
      RunIntendedAgrees(st, init);
    }
  }

  lemma TranscriptIntendedAgrees(text: string)
    requires NoNaNHeader(Kinds(Lines(text)))
    ensures TranscriptIntended(text) == TranscriptOf(text)
  {
    RunIntendedAgrees(Initial, Kinds(Lines(text)));
  }

  /** An opening line and then a NaN header: one entry, which carries the
      header line as a continuation. */
  lemma RunIntendedOpenThenNaN(k1: LineKind, k2: LineKind)
    requires OpensEntry(k1) && NaNHeader(k2)
    ensures Frozen(RunIntended(Initial, [k1, k2])) == [Continued(OpenedEntry(k1), k2.trimmedLine)]
  {
    var ks := [k1, k2];
    assert ks[..1] == [k1];
    assert [k1][..0] == [];
    assert RunIntended(Initial, [k1]) == StepIntended(RunIntended(Initial, []), k1);
    var st := StepIntended(Initial, k1);
    assert RunIntended(Initial, ks) == StepIntended(RunIntended(Initial, [k1]), k2);
    StepOpens(Initial, k1);
    assert Copies(Continued(OpenedEntry(k1), k2.trimmedLine), 1) == [Continued(OpenedEntry(k1), k2.trimmedLine)];
  }

  /** The input of `TranscriptRoundTrip.NaNHeaderDuplicates` gives one
      entry with the correction: the record's, with the header line kept as
      a continuation. */
  lemma NaNHeaderContinues(x: Record, r: char, text: string)
    requires ValidRecord(x) && IsRoleLetter(r) && InLine(text) && NoFence(text)
    ensures |TranscriptIntended(NaNAfterRecord(x, r, text))| == 1
    ensures TranscriptIntended(NaNAfterRecord(x, r, text))[0].speaker == x.speaker
    ensures TranscriptIntended(NaNAfterRecord(x, r, text))[0].timestamp == DecimalValue(x.timestamp)
  {
    var k1, k2 := Classify(FormatRecord(x)), Classify(HeaderLine("..", r, text));
    FormattedLine(x);
    NaNHeaderLine(r, text);
    NaNAfterRecordKinds(x, r, text);
    RunIntendedOpenThenNaN(k1, k2);
  }
}
