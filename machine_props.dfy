/** The line state machine of utils/parsingUtils.ts:41-80 as a whole: what
    preamble, blank lines and code fences do, that every entry has a
    non-negative timestamp and trimmed text, that continuation lines are
    appended to the open entry, and that without a NaN header the entries are
    the header lines, one for one and in order. */
module MachineProperties {
  import opened Optional
  import opened Text
  import opened Parsing
  import opened Seqs

  // ---------------------------------------------------------------------
  // Kinds of line

  /** A header whose timestamp parses: it opens a new entry. */
  predicate OpensEntry(k: LineKind) {
    k.Header? && k.timestamp.Some?
  }

  /** A line that matches the header pattern but whose timestamp is NaN. */
  predicate NaNHeader(k: LineKind) {
    k.Header? && k.timestamp.None?
  }

  /** The entry an opening line starts, before any continuation. */
  function OpenedEntry(k: LineKind): (e: TranscriptEntry)
    requires OpensEntry(k)
    ensures Trim(e.text) == e.text
  {
    TrimIdempotent(k.header.text);
    TranscriptEntry(RoleOf(k.header.role), Trim(k.header.text), k.timestamp.value)
  }

  /** What holds of every kind `Classify` gives: a header timestamp is not
      negative. */
  predicate Parsed(k: LineKind) {
    k.Header? && k.timestamp.Some? ==> k.timestamp.value >= 0.0
  }

  lemma KindsParsed(lines: seq<string>)
    ensures forall k :: 0 <= k < |lines| ==> Parsed(Kinds(lines)[k])
  {
    forall k | 0 <= k < |lines| ensures Parsed(Kinds(lines)[k]) {
      var t := Trim(lines[k]);
      if t != "" && FindHeader(t).Some? {
        var r := TimestampSeconds(FindHeader(t).value.timestampText);
        assert r.Some? ==> r.value >= 0.0;
      }
    }
  }

  /** The speaker and timestamp that identify an entry. */
  datatype Key = Key(speaker: Speaker, timestamp: real)

  function KeyOf(e: TranscriptEntry): Key {
    Key(e.speaker, e.timestamp)
  }

  function Keys(es: seq<TranscriptEntry>): (r: seq<Key>)
    ensures |r| == |es| && forall k :: 0 <= k < |es| ==> r[k] == KeyOf(es[k])
  {
    seq(|es|, k requires 0 <= k < |es| => KeyOf(es[k]))
  }

  /** The keys of the opening lines, in order. */
  function HeaderKeys(kinds: seq<LineKind>): seq<Key>
    decreases |kinds|
  {
    if kinds == [] then []
    else
      var last := kinds[|kinds| - 1];
      HeaderKeys(kinds[..|kinds| - 1]) + if OpensEntry(last) then [KeyOf(OpenedEntry(last))] else []
  }

  predicate NoNaNHeader(kinds: seq<LineKind>) {
    forall k :: 0 <= k < |kinds| ==> !NaNHeader(kinds[k])
  }

  // ---------------------------------------------------------------------
  // The loop over a concatenation

  /** Running over `xs + ys` is running over `xs`, then over `ys`. */
  lemma {:induction false} RunAppend(st: ParseState, xs: seq<LineKind>, ys: seq<LineKind>)
    ensures Run(st, xs + ys) == Run(Run(st, xs), ys)
    decreases |ys|
  {
    if ys == [] {
      assert xs + ys == xs;
    } else {
      var n := |ys| - 1;
      assert (xs + ys)[..|xs + ys| - 1] == xs + ys[..n];
      assert (xs + ys)[|xs + ys| - 1] == ys[n];
      RunAppend(st, xs, ys[..n]);
    }
  }

  /** Before any entry is open, a line that does not open one is ignored. */
  lemma {:induction false} PreambleIgnored(pre: seq<LineKind>)
    requires forall k :: 0 <= k < |pre| ==> !OpensEntry(pre[k])
    ensures Run(Initial, pre) == Initial
    decreases |pre|
  {
    if pre != [] {
      PreambleIgnored(pre[..|pre| - 1]);
    }
  }

  lemma KindsAppend(xs: seq<string>, ys: seq<string>)
    ensures Kinds(xs + ys) == Kinds(xs) + Kinds(ys)
  {
    MapAppend(Classify, xs, ys);
  }

  /** Preamble such as "Here is the transcript:" is dropped. */
  lemma PreambleDropped(pre: seq<string>, lines: seq<string>)
    requires forall k :: 0 <= k < |pre| ==> !OpensEntry(Classify(pre[k]))
    ensures Run(Initial, Kinds(pre + lines)) == Run(Initial, Kinds(lines))
  {
    KindsAppend(pre, lines);
    RunAppend(Initial, Kinds(pre), Kinds(lines));
    PreambleIgnored(Kinds(pre));
  }

  /** The lines that are not blank, in order. */
  function NonBlank(kinds: seq<LineKind>): (r: seq<LineKind>)
    ensures |r| <= |kinds|
    ensures forall k :: 0 <= k < |r| ==> !r[k].Blank?
    decreases |kinds|
  {
    if kinds == [] then []
    else
      var last := kinds[|kinds| - 1];
      NonBlank(kinds[..|kinds| - 1]) + if last.Blank? then [] else [last]
  }

  /** Blank lines change nothing, wherever they stand. */
  lemma {:induction false} BlankLinesIgnored(st: ParseState, kinds: seq<LineKind>)
    ensures Run(st, kinds) == Run(st, NonBlank(kinds))
    decreases |kinds|
  {
    if kinds != [] {
      var init, last := kinds[..|kinds| - 1], kinds[|kinds| - 1];
      BlankLinesIgnored(st, init);
      assert Run(st, kinds) == Step(Run(st, NonBlank(init)), last);
      if !last.Blank? {
        var r := NonBlank(init) + [last];
        assert r[..|r| - 1] == NonBlank(init);
        assert NonBlank(kinds) == r;
      } else {
        assert NonBlank(kinds) == NonBlank(init);
      }
    }
  }

  /** The loop sees a line only through its trimmed form. */
  lemma KindsTrimEquivalent(xs: seq<string>, ys: seq<string>)
    requires |xs| == |ys| && forall k :: 0 <= k < |xs| ==> Trim(xs[k]) == Trim(ys[k])
    ensures Kinds(xs) == Kinds(ys)
  {
    forall k | 0 <= k < |xs| ensures Classify(xs[k]) == Classify(ys[k]) {
      assert Classify(xs[k]) == TrimmedKind(Trim(ys[k]));
    }
  }

  /** The code fences are deleted first, so a text and the same text with
      its fences deleted give the same transcript. */
  lemma FencesIgnored(text: string)
    ensures TranscriptOf(RemoveFences(text)) == TranscriptOf(text)
  {
    RemoveFencesComplete(text);
    RemoveFencesNoFence(RemoveFences(text));
  }

  // ---------------------------------------------------------------------
  // Every entry is well formed

  predicate GoodTimestamps(st: ParseState) {
    && (forall k :: 0 <= k < |st.done| ==> st.done[k].timestamp >= 0.0)
    && (st.current.Some? ==> st.current.value.timestamp >= 0.0)
  }

  lemma {:induction false} RunKeepsGoodTimestamps(st: ParseState, kinds: seq<LineKind>)
    requires GoodTimestamps(st)
    requires forall k :: 0 <= k < |kinds| ==> Parsed(kinds[k])
    ensures GoodTimestamps(Run(st, kinds))
    decreases |kinds|
  {
    if kinds != [] {
      var init := kinds[..|kinds| - 1];
      assert forall k :: 0 <= k < |init| ==> Parsed(init[k]) by {
        forall k | 0 <= k < |init| ensures Parsed(init[k]) {
          assert init[k] == kinds[k];
        }
      }
      assert Parsed(kinds[|kinds| - 1]);
      RunKeepsGoodTimestamps(st, init);
    }
  }

  /** Every entry of `parseTranscript(text)` has a timestamp of at least zero
      seconds and text without surrounding whitespace. */
  lemma TranscriptWellFormed(text: string)
    ensures forall k :: 0 <= k < |TranscriptOf(text)| ==>
      TranscriptOf(text)[k].timestamp >= 0.0 && Trim(TranscriptOf(text)[k].text) == TranscriptOf(text)[k].text
  {
    var kinds := Kinds(Lines(text));
    KindsParsed(Lines(text));
    RunKeepsGoodTimestamps(Initial, kinds);
    var raw := Frozen(Run(Initial, kinds));
    assert forall k :: 0 <= k < |raw| ==> raw[k].timestamp >= 0.0;
    forall k | 0 <= k < |raw| ensures Trim(TranscriptOf(text)[k].text) == TranscriptOf(text)[k].text {
      TrimIdempotent(raw[k].text);
    }
  }

  // ---------------------------------------------------------------------
  // One entry per header line

  lemma KeysSnoc(es: seq<TranscriptEntry>, e: TranscriptEntry)
    ensures Keys(es + [e]) == Keys(es) + [KeyOf(e)]
  {
  }

  /** A continuation line changes text only. */
  lemma KeysOfExtend(st: ParseState, trimmedLine: string)
    requires st.aliases == 0
    ensures Keys(Frozen(Extend(st, trimmedLine))) == Keys(Frozen(st))
  {
    if st.current.Some? {
      var c := st.current.value;
      KeysSnoc(st.done, c);
      KeysSnoc(st.done, Continued(c, trimmedLine));
      assert Copies(c, 1) == [c];
      assert Copies(Continued(c, trimmedLine), 1) == [Continued(c, trimmedLine)];
    }
  }

  /** Opening an entry appends it. */
  lemma KeysOfOpen(st: ParseState, e: TranscriptEntry)
    ensures Frozen(Open(st, e)) == Frozen(st) + [e]
    ensures Keys(Frozen(Open(st, e))) == Keys(Frozen(st)) + [KeyOf(e)]
  {
    assert Copies(e, 1) == [e];
    KeysSnoc(Frozen(st), e);
  }

  /** An opening line freezes the open entry and opens its own. */
  lemma StepOpens(st: ParseState, k: LineKind)
    requires OpensEntry(k)
    ensures Step(st, k) == Open(st, OpenedEntry(k))
  {
  }

  /** Without a NaN header, no reference is pushed twice, and the entries
      are exactly the opening lines: one each, in order, with that line's
      speaker and timestamp. */
  lemma {:induction false} RunKeys(kinds: seq<LineKind>)
    requires NoNaNHeader(kinds)
    ensures Run(Initial, kinds).aliases == 0
    ensures Keys(Frozen(Run(Initial, kinds))) == HeaderKeys(kinds)
    decreases |kinds|
  {
    if kinds != [] {
      var init, last := kinds[..|kinds| - 1], kinds[|kinds| - 1];
      assert NoNaNHeader(init) by {
        forall k | 0 <= k < |init| ensures !NaNHeader(init[k]) {
          assert init[k] == kinds[k];
        }
      }
      assert !NaNHeader(last);
      RunKeys(init);
      var st := Run(Initial, init);
      if OpensEntry(last) {
        KeysOfOpen(st, OpenedEntry(last));
      } else if last.Continuation? {
        KeysOfExtend(st, last.trimmedLine);
      }
    }
  }

  lemma KeysOfTrimmed(raw: seq<TranscriptEntry>)
    ensures Keys(TrimmedEntries(raw)) == Keys(raw)
  {
  }

  /** The same for `parseTranscript(text)`. */
  lemma TranscriptKeys(text: string)
    requires NoNaNHeader(Kinds(Lines(text)))
    ensures Keys(TranscriptOf(text)) == HeaderKeys(Kinds(Lines(text)))
  {
    RunKeys(Kinds(Lines(text)));
    KeysOfTrimmed(RawEntries(text));
  }

  predicate AllOpen(kinds: seq<LineKind>) {
    forall k :: 0 <= k < |kinds| ==> OpensEntry(kinds[k])
  }

  /** The entries opening lines start, in order. */
  function OpenedEntries(kinds: seq<LineKind>): (es: seq<TranscriptEntry>)
    requires AllOpen(kinds)
    ensures |es| == |kinds|
    decreases |kinds|
  {
    if kinds == [] then []
    else
      var init := kinds[..|kinds| - 1];
      assert AllOpen(init) by {
        forall k | 0 <= k < |init| ensures OpensEntry(init[k]) {
          assert init[k] == kinds[k];
        }
      }
      OpenedEntries(init) + [OpenedEntry(kinds[|kinds| - 1])]
  }

  lemma {:induction false} OpenedEntriesAt(kinds: seq<LineKind>, k: nat)
    requires AllOpen(kinds) && k < |kinds|
    ensures OpenedEntries(kinds)[k] == OpenedEntry(kinds[k])
    decreases |kinds|
  {
    var n := |kinds|;
    var init := kinds[..n - 1];
    if k < n - 1 {
      assert AllOpen(init) by {
        forall j | 0 <= j < |init| ensures OpensEntry(init[j]) {
          assert init[j] == kinds[j];
        }
      }
      OpenedEntriesAt(init, k);
      assert init[k] == kinds[k];
    }
  }

  /** Lines that all open an entry give one entry each, in order. */
  lemma {:induction false} RunAllOpen(kinds: seq<LineKind>)
    requires AllOpen(kinds)
    ensures Frozen(Run(Initial, kinds)) == OpenedEntries(kinds)
    decreases |kinds|
  {
    if kinds != [] {
      var n := |kinds|;
      var init, last := kinds[..n - 1], kinds[n - 1];
      assert AllOpen(init) by {
        forall k | 0 <= k < |init| ensures OpensEntry(init[k]) {
          assert init[k] == kinds[k];
        }
      }
      RunAllOpen(init);
      var st := Run(Initial, init);
      assert Run(Initial, kinds) == Step(st, last);
      StepOpens(st, last);
      KeysOfOpen(st, OpenedEntry(last));
    }
  }

  // ---------------------------------------------------------------------
  // Continuation lines are appended to the open entry

  /** `text` followed by `"\n" + l` for each line `l`, in order. */
  function Appended(text: string, ls: seq<string>): string
    decreases |ls|
  {
    if ls == [] then text else Appended(text, ls[..|ls| - 1]) + "\n" + ls[|ls| - 1]
  }

  /** The kinds of trimmed lines in which the header pattern is not found. */
  function Conts(ls: seq<string>): (ks: seq<LineKind>)
    ensures |ks| == |ls| && forall k :: 0 <= k < |ls| ==> ks[k] == Continuation(ls[k])
  {
    seq(|ls|, k requires 0 <= k < |ls| => Continuation(ls[k]))
  }

  /** With an entry open, continuation lines are appended to its text, each
      after a `\n`, and nothing else of the state changes. */
  lemma {:induction false} RunContinuations(st: ParseState, ls: seq<string>)
    requires st.current.Some?
    ensures Run(st, Conts(ls)) == st.(current := Some(st.current.value.(text := Appended(st.current.value.text, ls))))
    decreases |ls|
  {
    if ls == [] {
      assert st.current.value.(text := st.current.value.text) == st.current.value;
    } else {
      var n := |ls| - 1;
      assert Conts(ls)[..n] == Conts(ls[..n]);
      RunContinuations(st, ls[..n]);
    }
  }

  /** An opening header followed by continuation lines gives one entry: the
      header's speaker and timestamp, its text with the lines appended. */
  lemma HeaderThenLines(k: LineKind, ls: seq<string>)
    requires OpensEntry(k)
    ensures Frozen(Run(Initial, [k] + Conts(ls))) == [OpenedEntry(k).(text := Appended(OpenedEntry(k).text, ls))]
  {
    assert [k][..0] == [];
    StepOpens(Initial, k);
    RunAppend(Initial, [k], Conts(ls));
    RunContinuations(Run(Initial, [k]), ls);
    var e := OpenedEntry(k).(text := Appended(OpenedEntry(k).text, ls));
    assert Copies(e, 1) == [e];
  }

  /** A non-blank line in which the header pattern is not found is a
      continuation carrying the trimmed line. */
  lemma ContinuationLine(l: string)
    requires Trim(l) != "" && FindHeader(Trim(l)).None?
    ensures Classify(l) == Continuation(Trim(l))
  {
  }

  /** Lines in which the header pattern is not found are classified as
      continuations of their trimmed forms. */
  lemma KindsContinued(h: string, ls: seq<string>)
    requires forall i :: 0 <= i < |ls| ==> Trim(ls[i]) != "" && FindHeader(Trim(ls[i])).None?
    ensures Kinds([h] + ls) == [Classify(h)] + Conts(Map(Trim, ls))
  {
    var a, b := Kinds([h] + ls), [Classify(h)] + Conts(Map(Trim, ls));
    assert |a| == |b|;
    forall i | 0 <= i < |a| ensures a[i] == b[i] {
      if i > 0 {
        ContinuationLine(ls[i - 1]);
      }
    }
  }

  /** `parseTranscript` on a text whose lines are one opening header and then
      lines that are neither blank nor headers: a single entry, whose text is
      the header's text with every further line appended, trimmed, after a
      `\n`; the whole then trimmed by the final `map`. */
  lemma TranscriptContinued(text: string, h: string, ls: seq<string>)
    requires Lines(text) == [h] + ls
    requires OpensEntry(Classify(h))
    requires forall i :: 0 <= i < |ls| ==> Trim(ls[i]) != "" && FindHeader(Trim(ls[i])).None?
    ensures TranscriptOf(text) ==
      [OpenedEntry(Classify(h)).(text := Trim(Appended(OpenedEntry(Classify(h)).text, Map(Trim, ls))))]
  {
    var k := Classify(h);
    KindsContinued(h, ls);
    HeaderThenLines(k, Map(Trim, ls));
    var raw := Frozen(Run(Initial, [k] + Conts(Map(Trim, ls))));
    assert RawEntries(text) == raw;
    assert TranscriptOf(text) == TrimmedEntries(raw);
  }

  // ---------------------------------------------------------------------
  // A NaN header pushes the open entry once more

  /** A NaN header while an entry is open leaves one more reference to the
      entry in `entries`, extended by the header line: the final push then
      makes them all show the same, last text. */
  lemma NaNHeaderAliases(st: ParseState, k: LineKind)
    requires st.current.Some? && NaNHeader(k)
    ensures Frozen(Step(st, k)) == st.done + Copies(Continued(st.current.value, k.trimmedLine), st.aliases + 2)
    ensures |Frozen(Step(st, k))| == |Frozen(st)| + 1
  {
  }

  /** An opening line and then a NaN header: two references to one entry,
      which carries the header line as a continuation. */
  lemma RunOpenThenNaN(k1: LineKind, k2: LineKind)
    requires OpensEntry(k1) && NaNHeader(k2)
    ensures Frozen(Run(Initial, [k1, k2])) == Copies(Continued(OpenedEntry(k1), k2.trimmedLine), 2)
  {
    var ks := [k1, k2];
    assert ks[..1] == [k1];
    assert [k1][..0] == [];
    assert Run(Initial, [k1]) == Step(Run(Initial, []), k1);
    var st := Step(Initial, k1);
    assert Run(Initial, ks) == Step(Run(Initial, [k1]), k2);
    StepOpens(Initial, k1);
    NaNHeaderAliases(st, k2);
  }
}
