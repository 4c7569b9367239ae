/** utils/exportUtils.ts: the CSV text of a list of records, the transcript
    rows it is given, and the plain-text summary. The download itself
    (`triggerDownload`) is not modelled. */
module Export {
  import opened Optional
  import opened Text
  import opened Parsing
  import opened Keywords
  import opened Seqs

  // ---------------------------------------------------------------------
  // Records

  /** A property value: `undefined`/`null`, or the text `String(value)` gives. */
  datatype Value = Missing | Defined(shown: string)

  datatype Field = Field(key: string, value: Value)

  /** An object, its properties in `Object.keys` order. */
  type Row = seq<Field>

  function KeyOf(f: Field): string {
    f.key
  }

  /** `Object.keys(row)`. */
  function Keys(row: Row): (ks: seq<string>)
    ensures |ks| == |row| && forall k :: 0 <= k < |row| ==> ks[k] == row[k].key
  {
    Map(KeyOf, row)
  }

  /** `row[key]`: the value of the first property named `key`. */
  function Lookup(row: Row, key: string): Value
    decreases |row|
  {
    if row == [] then Missing
    else if row[0].key == key then row[0].value
    else Lookup(row[1..], key)
  }

  /** A missing key reads as `undefined`; otherwise the first property of that name is read. */
  lemma {:induction false} LookupFirst(row: Row, key: string)
    ensures (forall k :: 0 <= k < |row| ==> row[k].key != key) ==> Lookup(row, key) == Missing
    ensures forall k :: 0 <= k < |row| && row[k].key == key && (forall i :: 0 <= i < k ==> row[i].key != key) ==>
      Lookup(row, key) == row[k].value
    decreases |row|
  {
    if row != [] && row[0].key != key {
      var rest := row[1..];
      LookupFirst(rest, key);
      assert Lookup(row, key) == Lookup(rest, key);
      forall k | 0 <= k < |row| && row[k].key == key && (forall i :: 0 <= i < k ==> row[i].key != key)
        ensures Lookup(row, key) == row[k].value
      {
        assert rest[k - 1] == row[k];
        forall i | 0 <= i < k - 1 ensures rest[i].key != key {
          assert rest[i] == row[i + 1];
        }
      }
      if forall k :: 0 <= k < |row| ==> row[k].key != key {
        forall k | 0 <= k < |rest| ensures rest[k].key != key {
          assert rest[k] == row[k + 1];
        }
      }
    }
  }

  /** exportUtils.ts:12: missing values give the empty cell. */
  function CellText(row: Row, header: string): string {
    match Lookup(row, header)
    case Missing => ""
    case Defined(s) => s
  }

  // ---------------------------------------------------------------------
  // Quoting

  /** `s.replace(/"/g, '""')`. */
  function DoubleQuotes(s: string): (r: string)
    ensures |r| >= |s|
  {
    if s == [] then []
    else (if s[0] == '"' then "\"\"" else [s[0]]) + DoubleQuotes(s[1..])
  }

  function Quote(s: string): string {
    "\"" + DoubleQuotes(s) + "\""
  }

  predicate IsSpecial(c: char) {
    c == '"' || c == ',' || c == '\n' || c == '\r'
  }

  /** exportUtils.ts:13: `/[",\n\r]/.test(cell)`. */
  predicate NeedsQuote(s: string) {
    exists k :: 0 <= k < |s| && IsSpecial(s[k])
  }

  /** exportUtils.ts:13-16. */
  function Escape(cell: string): string {
    if NeedsQuote(cell) then Quote(cell) else cell
  }

  /** A quoted cell has the quotes doubled between a pair of outer quotes;
      any other cell is kept exactly. */
  lemma EscapeCases(cell: string)
    ensures NeedsQuote(cell) ==> Escape(cell) == "\"" + DoubleQuotes(cell) + "\""
    ensures !NeedsQuote(cell) ==> Escape(cell) == cell
  {
  }

  // ---------------------------------------------------------------------
  // createCsvContent

  function HeaderRow(headers: seq<string>): string {
    Join(Map(Quote, headers), ",")
  }

  function Cells(headers: seq<string>, row: Row): (cs: seq<string>)
    ensures |cs| == |headers| && forall j :: 0 <= j < |headers| ==> cs[j] == CellText(row, headers[j])
  {
    seq(|headers|, j requires 0 <= j < |headers| => CellText(row, headers[j]))
  }

  function RowLine(headers: seq<string>, row: Row): string {
    Join(Map(Escape, Cells(headers, row)), ",")
  }

  function RowLines(headers: seq<string>, data: seq<Row>): (ls: seq<string>)
    ensures |ls| == |data| && forall i :: 0 <= i < |data| ==> ls[i] == RowLine(headers, data[i])
  {
    seq(|data|, i requires 0 <= i < |data| => RowLine(headers, data[i]))
  }

  /** exportUtils.ts:4-21: the header row, then one line per row, joined
      with `\n`; the columns are the first row's keys. */
  function CreateCsv(data: seq<Row>): string {
    if data == [] then ""
    else Join([HeaderRow(Keys(data[0]))] + RowLines(Keys(data[0]), data), "\n")
  }

  // ---------------------------------------------------------------------
  // A field parser in the manner of section 2 of RFC 4180, with a line feed
  // ending a record where the RFC has CRLF

  /** The rest of a quoted field after its opening quote: its text with
      `""` read as one quote, and what follows the closing quote. */
  function Unquote(s: string): (r: Option<(string, string)>)
    ensures r.Some? ==> |r.value.1| < |s|
  {
    if s == [] then None
    else if s[0] == '"' then
      if |s| >= 2 && s[1] == '"' then
        match Unquote(s[2..])
        case None => None
        case Some(p) => Some(("\"" + p.0, p.1))
      else Some(("", s[1..]))
    else
      match Unquote(s[1..])
      case None => None
      case Some(p) => Some(([s[0]] + p.0, p.1))
  }

  /** Where an unquoted field that starts at `i` ends. */
  function BareEnd(s: string, i: nat): (j: nat)
    requires i <= |s|
    ensures i <= j <= |s|
    decreases |s| - i
  {
    if i == |s| || s[i] == ',' || s[i] == '\n' then i else BareEnd(s, i + 1)
  }

  function ParseField(s: string): (r: Option<(string, string)>)
    ensures r.Some? ==> |r.value.1| <= |s|
  {
    if s != [] && s[0] == '"' then Unquote(s[1..])
    else
      var n := BareEnd(s, 0);
      Some((s[..n], s[n..]))
  }

  /** The fields of one record, the text after it, and whether another
      record follows. */
  function ParseRecord(s: string): (r: Option<(seq<string>, string, bool)>)
    ensures r.Some? ==> |r.value.1| <= |s|
    ensures r.Some? && r.value.2 ==> |r.value.1| < |s|
    decreases |s|
  {
    match ParseField(s)
    case None => None
    case Some(p) =>
      var (f, rest) := p;
      if rest == [] then Some(([f], "", false))
      else if rest[0] == ',' then
        match ParseRecord(rest[1..])
        case None => None
        case Some(q) => Some(([f] + q.0, q.1, q.2))
      else if rest[0] == '\n' then Some(([f], rest[1..], true))
      else None
  }

  function ParseCsv(s: string): (r: Option<seq<seq<string>>>)
    decreases |s|
  {
    match ParseRecord(s)
    case None => None
    case Some(q) =>
      if q.2 then
        match ParseCsv(q.1)
        case None => None
        case Some(rs) => Some([q.0] + rs)
      else Some([q.0])
  }

  // ---------------------------------------------------------------------
  // Reading the CSV text back

  /** `enc` is how `cell` is written: always quoted, or unchanged when
      nothing in it needs quoting. */
  predicate Encodes(enc: string, cell: string) {
    enc == Quote(cell) || (enc == cell && !NeedsQuote(cell))
  }

  /** What may follow a field: nothing, a comma or a line feed. */
  predicate FieldEnd(tail: string) {
    tail == [] || tail[0] == ',' || tail[0] == '\n'
  }

  lemma {:induction false} UnquoteDoubled(c: string, tail: string)
    requires tail == [] || tail[0] != '"'
    ensures Unquote(DoubleQuotes(c) + "\"" + tail) == Some((c, tail))
  {
    var s := DoubleQuotes(c) + "\"" + tail;
    if c == [] {
      assert s == "\"" + tail;
      assert s[1..] == tail;
    } else {
      UnquoteDoubled(c[1..], tail);
      var s' := DoubleQuotes(c[1..]) + "\"" + tail;
      if c[0] == '"' {
        assert s == "\"\"" + s';
        assert s[2..] == s';
        assert "\"" + c[1..] == c;
      } else {
        assert s == [c[0]] + s';
        assert s[1..] == s';
        assert [c[0]] + c[1..] == c;
      }
    }
  }

  lemma {:induction false} BareEndAll(c: string, tail: string, i: nat)
    requires i <= |c| && FieldEnd(tail)
    requires forall k :: 0 <= k < |c| ==> c[k] != ',' && c[k] != '\n'
    ensures BareEnd(c + tail, i) == |c|
    decreases |c| - i
  {
    var s := c + tail;
    if i < |c| {
      assert s[i] == c[i];
      BareEndAll(c, tail, i + 1);
    } else if tail != [] {
      assert s[i] == tail[0];
    }
  }

  /** Each written field reads back as its cell, leaving what follows it. */
  lemma FieldParses(enc: string, cell: string, tail: string)
    requires Encodes(enc, cell) && FieldEnd(tail)
    ensures ParseField(enc + tail) == Some((cell, tail))
  {
    var s := enc + tail;
    if enc == Quote(cell) {
      assert s[0] == '"';
      assert s[1..] == DoubleQuotes(cell) + "\"" + tail;
      UnquoteDoubled(cell, tail);
    } else {
      assert cell != [] ==> !IsSpecial(cell[0]);
      assert forall k :: 0 <= k < |cell| ==> !IsSpecial(cell[k]);
      BareEndAll(cell, tail, 0);
      assert s[..|cell|] == cell && s[|cell|..] == tail;
    }
  }

  /** A line of written fields separated by commas reads back as the cells. */
  lemma {:induction false} RecordParses(encs: seq<string>, cells: seq<string>, tail: string)
    requires |encs| == |cells| >= 1
    requires forall k :: 0 <= k < |encs| ==> Encodes(encs[k], cells[k])
    requires tail == [] || tail[0] == '\n'
    ensures ParseRecord(Join(encs, ",") + tail) == Some((cells, if tail == [] then "" else tail[1..], tail != []))
  {
    if |encs| == 1 {
      assert Join(encs, ",") == encs[0];
      FieldParses(encs[0], cells[0], tail);
      assert cells == [cells[0]];
    } else {
      var rest := Join(encs[1..], ",") + tail;
      assert Join(encs, ",") + tail == encs[0] + ("," + rest);
      FieldParses(encs[0], cells[0], "," + rest);
      assert ("," + rest)[1..] == rest;
      RecordParses(encs[1..], cells[1..], tail);
      assert [cells[0]] + cells[1..] == cells;
    }
  }

  /** Written lines joined with line feeds read back as their records. */
  lemma {:induction false} CsvParses(lines: seq<string>, encs: seq<seq<string>>, records: seq<seq<string>>)
    requires |lines| == |encs| == |records| >= 1
    requires forall i :: 0 <= i < |lines| ==> lines[i] == Join(encs[i], ",")
    requires forall i :: 0 <= i < |lines| ==> |encs[i]| == |records[i]| >= 1
    requires forall i, k :: 0 <= i < |lines| && 0 <= k < |encs[i]| ==> Encodes(encs[i][k], records[i][k])
    ensures ParseCsv(Join(lines, "\n")) == Some(records)
  {
    if |lines| == 1 {
      assert Join(lines, "\n") == lines[0] + "";
      RecordParses(encs[0], records[0], "");
      assert records == [records[0]];
    } else {
      var rest := Join(lines[1..], "\n");
      assert Join(lines, "\n") == lines[0] + ("\n" + rest);
      RecordParses(encs[0], records[0], "\n" + rest);
      assert ("\n" + rest)[1..] == rest;
      CsvParses(lines[1..], encs[1..], records[1..]);
      assert [records[0]] + records[1..] == records;
    }
  }

  /** The records `createCsvContent(data)` holds: the headers, then each
      row's cells under them. */
  function CsvRecords(data: seq<Row>): (rs: seq<seq<string>>)
    requires data != []
    ensures |rs| == |data| + 1 && rs[0] == Keys(data[0])
    ensures forall i :: 0 <= i < |data| ==> rs[i + 1] == Cells(Keys(data[0]), data[i])
  {
    [Keys(data[0])] + seq(|data|, i requires 0 <= i < |data| => Cells(Keys(data[0]), data[i]))
  }

  /** The fields `createCsvContent(data)` writes, line by line. */
  function WrittenFields(data: seq<Row>): (fs: seq<seq<string>>)
    requires data != []
    ensures |fs| == |data| + 1 && fs[0] == Map(Quote, Keys(data[0]))
    ensures forall i :: 0 <= i < |data| ==> fs[i + 1] == Map(Escape, Cells(Keys(data[0]), data[i]))
  {
    [Map(Quote, Keys(data[0]))] + seq(|data|, i requires 0 <= i < |data| => Map(Escape, Cells(Keys(data[0]), data[i])))
  }

  /** Each written line is its fields joined by commas. */
  lemma WrittenLines(data: seq<Row>)
    requires data != []
    ensures var lines := [HeaderRow(Keys(data[0]))] + RowLines(Keys(data[0]), data);
      |lines| == |WrittenFields(data)| &&
      forall i :: 0 <= i < |lines| ==> lines[i] == Join(WrittenFields(data)[i], ",")
  {
    var lines := [HeaderRow(Keys(data[0]))] + RowLines(Keys(data[0]), data);
    forall i | 0 <= i < |lines| ensures lines[i] == Join(WrittenFields(data)[i], ",") {
      if i > 0 {
        assert lines[i] == RowLine(Keys(data[0]), data[i - 1]);
      }
    }
  }

  /** Each written field encodes the record field under it. */
  lemma WrittenEncode(data: seq<Row>)
    requires data != [] && |data[0]| >= 1
    ensures forall i :: 0 <= i < |data| + 1 ==> |WrittenFields(data)[i]| == |CsvRecords(data)[i]| >= 1
    ensures forall i, k :: 0 <= i < |data| + 1 && 0 <= k < |WrittenFields(data)[i]| ==>
      Encodes(WrittenFields(data)[i][k], CsvRecords(data)[i][k])
  {
    var fs, records := WrittenFields(data), CsvRecords(data);
    forall i, k | 0 <= i < |data| + 1 && 0 <= k < |fs[i]| ensures Encodes(fs[i][k], records[i][k]) {
      if i > 0 {
        EscapeCases(records[i][k]);
      }
    }
  }

  /** Reading `createCsvContent(data)` with the field parser recovers the
      header names and, under them, every row's cell texts: one field per
      header, missing keys empty and extra keys dropped. */
  lemma CsvRoundTrip(data: seq<Row>)
    requires data != [] && |data[0]| >= 1
    ensures ParseCsv(CreateCsv(data)) == Some(CsvRecords(data))
  {
    WrittenLines(data);
    WrittenEncode(data);
    CsvParses([HeaderRow(Keys(data[0]))] + RowLines(Keys(data[0]), data), WrittenFields(data), CsvRecords(data));
  }

  lemma CsvEmpty()
    ensures CreateCsv([]) == ""
  {
  }

  // ---------------------------------------------------------------------
  // exportTranscriptToCsv

  /** exportUtils.ts:38. */
  function SpeakerName(s: Speaker): (name: string)
    ensures s == A ==> name == "Customer"
    ensures s != A ==> name == "Salesperson"
  {
    if s == A then "Customer" else "Salesperson"
  }

  /** exportUtils.ts:36-40; `numberText` stands for `String` on a number. */
  function TranscriptRow(numberText: real -> string, e: TranscriptEntry): Row {
    [Field("timestamp", Defined(numberText(e.timestamp))),
     Field("speaker", Defined(SpeakerName(e.speaker))),
     Field("text", Defined(e.text))]
  }

  function TranscriptRows(numberText: real -> string, data: seq<TranscriptEntry>): (rows: seq<Row>)
    ensures |rows| == |data| && forall i :: 0 <= i < |data| ==> rows[i] == TranscriptRow(numberText, data[i])
  {
    seq(|data|, i requires 0 <= i < |data| => TranscriptRow(numberText, data[i]))
  }

  /** The CSV text `exportTranscriptToCsv(data)` downloads. */
  function TranscriptCsv(numberText: real -> string, data: seq<TranscriptEntry>): string {
    CreateCsv(TranscriptRows(numberText, data))
  }

  /** The transcript CSV reads back as the columns timestamp, speaker and
      text, then one record per entry with its timestamp text, its speaker's
      name and its text. */
  lemma TranscriptCsvRoundTrip(numberText: real -> string, data: seq<TranscriptEntry>)
    requires data != []
    ensures ParseCsv(TranscriptCsv(numberText, data)).Some?
    ensures |ParseCsv(TranscriptCsv(numberText, data)).value| == |data| + 1
    ensures ParseCsv(TranscriptCsv(numberText, data)).value[0] == TranscriptHeaders
    ensures forall i :: 0 <= i < |data| ==>
      ParseCsv(TranscriptCsv(numberText, data)).value[i + 1] == TranscriptCells(numberText, data[i])
  {
    var rows := TranscriptRows(numberText, data);
    TranscriptRowShape(numberText, data[0]);
    CsvRoundTrip(rows);
    forall i | 0 <= i < |data| ensures Cells(Keys(rows[0]), rows[i]) == TranscriptCells(numberText, data[i]) {
      TranscriptRowShape(numberText, data[i]);
    }
  }

  const TranscriptHeaders: seq<string> := ["timestamp", "speaker", "text"]

  /** The cells of one entry's record. */
  function TranscriptCells(numberText: real -> string, e: TranscriptEntry): seq<string> {
    [numberText(e.timestamp), SpeakerName(e.speaker), e.text]
  }

  lemma TranscriptRowShape(numberText: real -> string, e: TranscriptEntry)
    ensures Keys(TranscriptRow(numberText, e)) == TranscriptHeaders
    ensures Cells(TranscriptHeaders, TranscriptRow(numberText, e)) == TranscriptCells(numberText, e)
  {
    var row := TranscriptRow(numberText, e);
    assert CellText(row, "timestamp") == numberText(e.timestamp);
    assert row[0].key != "speaker" && row[1].key == "speaker";
    LookupFirst(row, "speaker");
    assert CellText(row, "speaker") == SpeakerName(e.speaker);
    assert row[0].key != "text" && row[1].key != "text" && row[2].key == "text";
    LookupFirst(row, "text");
    assert CellText(row, "text") == e.text;
  }

  /** No entries: the empty text. */
  lemma TranscriptCsvEmpty(numberText: real -> string)
    ensures TranscriptCsv(numberText, []) == ""
  {
  }

  // ---------------------------------------------------------------------
  // exportCoachingCardToText

  datatype CoachingCard = CoachingCard(strengths: seq<string>, opportunities: seq<string>)

  datatype AiInsights = AiInsights(summary: string, keyPoints: seq<string>, rolePlaySuggestion: string)

  datatype FillerWord = FillerWord(word: string, count: nat)

  datatype VocalDelivery = VocalDelivery(pace: string, clarity: string, toneClassification: string,
                                         toneImpact: string, fillerWords: seq<FillerWord>)

  /** The parts of the analysis result the summary reads; the optional ones
      are `None` when absent. */
  datatype Summary = Summary(coachingCard: CoachingCard, nextSteps: seq<string>, aiInsights: Option<AiInsights>,
                             vocalDelivery: Option<VocalDelivery>, keywordAnalysis: Option<seq<KeywordAnalysis>>)

  /** One line per item, in order, each ended by `\n`. */
  function Lines<T>(line: T -> string, items: seq<T>): string
    decreases |items|
  {
    if items == [] then ""
    else Lines(line, items[..|items| - 1]) + line(items[|items| - 1]) + "\n"
  }

  function Bullet(s: string): string {
    "- " + s
  }

  /** exportUtils.ts:89. */
  function FillerLine(fw: FillerWord): string {
    "- " + fw.word + ": " + NatToString(fw.count) + " time(s)"
  }

  /** exportUtils.ts:99. */
  function KeywordLine(kw: KeywordAnalysis): string {
    "- \"" + kw.keyword + "\": Salesperson (" + NatToString(kw.salespersonMentions) +
    "), Customer (" + NatToString(kw.customerMentions) + ")"
  }

  /** exportUtils.ts:51-52. */
  const Title := "Sales Coach AI - Full Analysis Summary\n" + "======================================\n\n"

  /** exportUtils.ts:55-67: the coaching card and the next steps after `p`. */
  function WithCard(p: string, card: CoachingCard, nextSteps: seq<string>): string {
    p + "AI Coaching Card:\n" + "-----------------\n" + "Strengths:\n" + Lines(Bullet, card.strengths) +
    "\nOpportunities:\n" + Lines(Bullet, card.opportunities) + "\n\n" +
    "Actionable Next Steps:\n" + "----------------------\n" + Lines(Bullet, nextSteps) + "\n\n"
  }

  /** exportUtils.ts:70-78. */
  function WithInsights(p: string, ai: Option<AiInsights>): string {
    match ai
    case None => p
    case Some(x) =>
      p + "AI Insights:\n" + "------------\n" + "Summary: " + x.summary + "\n\n" + "Key Points:\n" +
      Lines(Bullet, x.keyPoints) + "\nSuggested Role-Play: " + x.rolePlaySuggestion + "\n" + "\n\n"
  }

  /** exportUtils.ts:87-90. */
  function WithFillers(p: string, fillerWords: seq<FillerWord>): string {
    if |fillerWords| > 0 then p + "Filler Words Detected:\n" + Lines(FillerLine, fillerWords) else p
  }

  /** exportUtils.ts:81-92. */
  function WithVocal(p: string, vd: Option<VocalDelivery>): string {
    match vd
    case None => p
    case Some(v) =>
      WithFillers(p + "Vocal Delivery Analysis:\n" + "------------------------\n" + "Pace: " + v.pace + "\n" +
                  "Clarity: " + v.clarity + "\n" + "Tone: " + v.toneClassification + " (" + v.toneImpact + ")\n",
                  v.fillerWords) + "\n\n"
  }

  /** exportUtils.ts:95-102. */
  function WithKeywords(p: string, ka: Option<seq<KeywordAnalysis>>): string {
    if ka.Some? && |ka.value| > 0 then
      p + "Keyword Tracker:\n" + "----------------\n" + Lines(KeywordLine, ka.value) + "\n\n"
    else p
  }

  /** exportUtils.ts:105-109. */
  function WithComment(p: string, comment: string): string {
    if comment != "" then p + "Manager's Comments:\n" + "-------------------\n" + comment + "\n" else p
  }

  /** The text `exportCoachingCardToText(data, comment)` downloads. */
  function SummaryText(d: Summary, comment: string): string {
    WithComment(WithKeywords(WithVocal(WithInsights(WithCard(Title, d.coachingCard, d.nextSteps),
      d.aiInsights), d.vocalDelivery), d.keywordAnalysis), comment)
  }

  /** One `forEach` appending a line per item. */
  method AppendLines<T>(content: string, line: T -> string, items: seq<T>) returns (content': string)
    ensures content' == content + Lines(line, items)
  {
    content' := content;
    for i := 0 to |items|
      invariant content' == content + Lines(line, items[..i])
    {
      assert items[..i + 1][..i] == items[..i];
      content' := content' + line(items[i]) + "\n";
    }
    assert items[..|items|] == items;
  }

  /** exportUtils.ts:50-110, up to the download. */
  method ExportSummary(data: Summary, comment: string) returns (content: string)
    ensures content == SummaryText(data, comment)
  {
    content := "Sales Coach AI - Full Analysis Summary\n";
    content := content + "======================================\n\n";
    content := AppendCard(content, data.coachingCard, data.nextSteps);
    content := AppendInsights(content, data.aiInsights);
    content := AppendVocal(content, data.vocalDelivery);
    content := AppendKeywords(content, data.keywordAnalysis);
    content := AppendComment(content, comment);
  }

  /** exportUtils.ts:54-67. */
  method AppendCard(content: string, card: CoachingCard, nextSteps: seq<string>) returns (content': string)
    ensures content' == WithCard(content, card, nextSteps)
  {
    content' := content + "AI Coaching Card:\n";
    content' := content' + "-----------------\n";
    content' := content' + "Strengths:\n";
    content' := AppendLines(content', Bullet, card.strengths);
    content' := content' + "\nOpportunities:\n";
    content' := AppendLines(content', Bullet, card.opportunities);
    content' := content' + "\n\n";
    content' := content' + "Actionable Next Steps:\n";
    content' := content' + "----------------------\n";
    content' := AppendLines(content', Bullet, nextSteps);
    content' := content' + "\n\n";
  }

  /** exportUtils.ts:69-78. */
  method AppendInsights(content: string, ai: Option<AiInsights>) returns (content': string)
    ensures content' == WithInsights(content, ai)
  {
    content' := content;
    if ai.Some? {
      var x := ai.value;
      content' := content' + "AI Insights:\n";
      content' := content' + "------------\n";
      content' := content' + "Summary: " + x.summary + "\n\n";
      content' := content' + "Key Points:\n";
      content' := AppendLines(content', Bullet, x.keyPoints);
      content' := content' + "\nSuggested Role-Play: " + x.rolePlaySuggestion + "\n";
      content' := content' + "\n\n";
    }
  }

  /** exportUtils.ts:80-92. */
  method AppendVocal(content: string, vd: Option<VocalDelivery>) returns (content': string)
    ensures content' == WithVocal(content, vd)
  {
    content' := content;
    if vd.Some? {
      var v := vd.value;
      content' := content' + "Vocal Delivery Analysis:\n";
      content' := content' + "------------------------\n";
      content' := content' + "Pace: " + v.pace + "\n";
      content' := content' + "Clarity: " + v.clarity + "\n";
      content' := content' + "Tone: " + v.toneClassification + " (" + v.toneImpact + ")\n";
      if |v.fillerWords| > 0 {
        content' := content' + "Filler Words Detected:\n";
        content' := AppendLines(content', FillerLine, v.fillerWords);
      }
      content' := content' + "\n\n";
    }
  }

  /** exportUtils.ts:94-102. */
  method AppendKeywords(content: string, ka: Option<seq<KeywordAnalysis>>) returns (content': string)
    ensures content' == WithKeywords(content, ka)
  {
    content' := content;
    if ka.Some? && |ka.value| > 0 {
      content' := content' + "Keyword Tracker:\n";
      content' := content' + "----------------\n";
      content' := AppendLines(content', KeywordLine, ka.value);
      content' := content' + "\n\n";
    }
  }

  /** exportUtils.ts:104-109. */
  method AppendComment(content: string, comment: string) returns (content': string)
    ensures content' == WithComment(content, comment)
  {
    content' := content;
    if comment != "" {
      content' := content' + "Manager's Comments:\n";
      content' := content' + "-------------------\n";
      content' := content' + comment + "\n";
    }
  }

  // ---------------------------------------------------------------------
  // Properties of the summary

  /** `Lines` written as a join: each line, then the empty piece after the
      last line feed. */
  lemma {:induction false} LinesJoin<T>(line: T -> string, items: seq<T>)
    ensures Lines(line, items) + "" == Join(Map(line, items) + [""], "\n")
    decreases |items|
  {
    if items == [] {
      assert Map(line, items) + [""] == [""];
    } else {
      var init, last := items[..|items| - 1], items[|items| - 1];
      var ls := Map(line, init);
      assert Lines(line, items) == Lines(line, init) + line(last) + "\n";
      LinesJoin(line, init);
      assert Lines(line, init) == Join(ls + [""], "\n");
      JoinSnoc(ls, line(last));
      assert items == init + [last];
      MapAppend(line, init, [last]);
      assert Map(line, items) + [""] == ls + [line(last)] + [""];
    }
  }

  /** Joining with one more piece before the trailing empty one. */
  lemma {:induction false} JoinSnoc(ls: seq<string>, x: string)
    ensures Join(ls + [x] + [""], "\n") == Join(ls + [""], "\n") + x + "\n"
    decreases |ls|
  {
    if ls == [] {
      assert [x] + [""] == [x, ""];
      assert Join([x, ""], "\n") == x + "\n" + Join([""], "\n");
    } else {
      assert (ls + [x] + [""])[1..] == ls[1..] + [x] + [""];
      assert (ls + [""])[1..] == ls[1..] + [""];
      JoinSnoc(ls[1..], x);
    }
  }

  /** Items without a line feed each become one line, in their order: the
      text read by lines is the lines and then an empty piece. */
  lemma LinesSplit<T>(line: T -> string, items: seq<T>)
    requires forall k :: 0 <= k < |items| ==> '\n' !in line(items[k])
    ensures Split(Lines(line, items), '\n') == Map(line, items) + [""]
  {
    LinesJoin(line, items);
    assert Lines(line, items) + "" == Lines(line, items);
    LinesInLine(line, items);
    SplitJoin(Map(line, items) + [""], '\n');
  }

  lemma LinesInLine<T>(line: T -> string, items: seq<T>)
    requires forall k :: 0 <= k < |items| ==> '\n' !in line(items[k])
    ensures forall k :: 0 <= k < |items| + 1 ==> '\n' !in (Map(line, items) + [""])[k]
  {
    var parts := Map(line, items) + [""];
    forall k | 0 <= k < |parts| ensures '\n' !in parts[k] {
      if k < |items| {
        assert parts[k] == line(items[k]);
      }
    }
  }

  /** Each optional block is written exactly when it is present: AI Insights
      and Vocal Delivery when given, the filler words when there are any,
      Keyword Tracker when the list is given and not empty, Manager's
      Comments when the comment is not empty. */
  lemma InsightsOptional(p: string, ai: Option<AiInsights>)
    ensures WithInsights(p, ai) == p <==> ai.None?
  {
    if ai.Some? {
      assert |WithInsights(p, ai)| > |p|;
    }
  }

  lemma VocalOptional(p: string, vd: Option<VocalDelivery>)
    ensures WithVocal(p, vd) == p <==> vd.None?
  {
    if vd.Some? {
      var v := vd.value;
      var q := p + "Vocal Delivery Analysis:\n" + "------------------------\n" + "Pace: " + v.pace + "\n" +
               "Clarity: " + v.clarity + "\n" + "Tone: " + v.toneClassification + " (" + v.toneImpact + ")\n";
      assert |WithFillers(q, v.fillerWords)| >= |q| > |p|;
    }
  }

  lemma FillersOptional(p: string, fws: seq<FillerWord>)
    ensures WithFillers(p, fws) == p <==> fws == []
  {
    if fws != [] {
      assert |WithFillers(p, fws)| > |p|;
    }
  }

  lemma KeywordsOptional(p: string, ka: Option<seq<KeywordAnalysis>>)
    ensures WithKeywords(p, ka) == p <==> ka.None? || ka.value == []
  {
    if ka.Some? && ka.value != [] {
      assert |WithKeywords(p, ka)| > |p|;
    }
  }

  lemma CommentOptional(p: string, comment: string)
    ensures WithComment(p, comment) == p <==> comment == ""
  {
    if comment != "" {
      assert |WithComment(p, comment)| > |p|;
    }
  }
}
