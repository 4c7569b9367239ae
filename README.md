# Mr.Sales: transcript parsing, keyword counting, export and dashboard rules

Mr.Sales records a sales call and asks a language model for a transcript and a
coaching analysis. Turning that output into a dashboard runs through a small
deterministic core, which this project models in Dafny and proves properties of:

- **Transcript line parser** (`utils/parsingUtils.ts`).
  - `parseTimestamp` reads `ss`, `mm:ss` or `hh:mm:ss` into seconds.
  - `parseTranscript` is a single-pass line state machine. It turns
    `[timestamp] Speaker X: text` header lines, continuation lines and preamble
    into an ordered list of entries.
  - The model keeps the source's aliasing: the open entry object is pushed into
    `entries` and later mutated through the same reference. One model
    (`Parsing.ParseTranscript`) uses real heap objects. An equivalent explicit
    state (`Parsing.Run`, with an alias count) is what the properties are
    proved about.
  - The header regular expression is hand-coded as a leftmost-match
    recogniser over ASCII.
  - The line formatter of `App.tsx` is modelled as the parser's round-trip
    partner.
- **Keyword counter** (`utils/keywordUtils.ts`). It counts whole-word,
  case-insensitive, non-overlapping matches, per speaker. The counters live in
  a dictionary keyed by the lower-cased keyword.
- **Export** (`utils/exportUtils.ts`).
  - The CSV writer quotes and escapes cells in the manner of section 2, rules
    6-7, of RFC 4180. The model shows that an RFC 4180 field parser reads back
    the headers and cells.
  - The transcript-to-CSV mapping.
  - The plain-text analysis summary.
- **UI components**: each one's rules and state.
  - Keyword bar scaling (`KeywordTracker`).
  - The clock display and play state (`AudioPlayer`).
  - Tour navigation and popover geometry (`OnboardingTour`).
  - The panel-visibility toggle and dropdown (`DashboardSettings`).
  - The single-open accordion (`KeywordGlossary`).
  - Trim-and-submit (`KeywordInput`).

JavaScript `NaN` is `None` of an `Option<real>`. Numbers are exact `real`s; no
claim is made about IEEE rounding. Text is ASCII: whitespace is space, tab,
line feed, vertical tab, form feed and carriage return, and case folding only
touches `A`-`Z` and `a`-`z`.

Modules:

| file | module | models |
|---|---|---|
| option.dfy | Optional | `Option` |
| seqs.dfy | Seqs | `map` over sequences |
| text.dfy | Text | `trim`, `toLowerCase`, `split`, `join`, removing code fences, decimal digits |
| parsing.dfy | Parsing | `parseTimestamp`, the header pattern, the line state machine, `parseTranscript` over objects |
| parsing_props.dfy | TranscriptProperties | what the header pattern and the timestamp reader accept |
| machine_props.dfy | MachineProperties | what the state machine does to preamble, blank lines, fences, continuation lines and NaN headers |
| round_trip.dfy | TranscriptRoundTrip | the `App.tsx` line formatter and the round trip through the parser, and the NaN-header duplication |
| intended.dfy | IntendedParsing | the parser with the NaN branch as its comment describes it |
| keywords.dfy | Keywords | `analyzeKeywords` |
| export.dfy | Export | `createCsvContent`, `exportTranscriptToCsv`, `exportCoachingCardToText` |
| keyword_tracker.dfy | KeywordTrackerView | `KeywordTracker` |
| audio_player.dfy | AudioPlayerView | `AudioPlayer` |
| onboarding_tour.dfy | OnboardingTourView | `OnboardingTour` |
| dashboard_settings.dfy | DashboardSettingsView | `DashboardSettings` and the initial layout of `Dashboard` |
| keyword_glossary.dfy | KeywordGlossaryView | `KeywordGlossary` |
| keyword_input.dfy | KeywordInputView | `KeywordInput` |

## Model

| member | source | states |
|---|---|---|
| Text.Trim | utils/parsingUtils.ts:42 | the result has no whitespace at either end, is no longer than the input, and is empty exactly when the input is all whitespace |
| Text.TrimSlice | utils/parsingUtils.ts:42 | the trimmed text is a slice of the input |
| Text.TrimIdempotent | utils/parsingUtils.ts:83 | trimming an already trimmed text changes nothing |
| Text.TrimChars | utils/parsingUtils.ts:42 | every character of a trimmed text occurs in the original |
| Text.ToLower | utils/keywordUtils.ts:15 | lower-casing keeps the length and folds each character on its own |
| Text.ToLowerIdempotent | utils/keywordUtils.ts:15-18 | lower-casing twice is lower-casing once |
| Text.SplitJoinBack | utils/parsingUtils.ts:33 | joining the pieces of `split` with the separator gives back the text |
| Text.Split | utils/parsingUtils.ts:33 | `split` gives at least one piece, none containing the separator |
| Text.SplitJoin | utils/parsingUtils.ts:33 | splitting pieces joined by a separator they do not contain gives the pieces back |
| Text.RemoveFencesComplete | utils/parsingUtils.ts:30 | no code fence is left after removing all of them |
| Text.NatToString | components/AudioPlayer.tsx:58 | `String(n)` is at least one digit, with no leading zero |
| Text.NatToStringValue | components/AudioPlayer.tsx:58 | `String(n)` reads back as `n` |
| Text.PadStart | components/AudioPlayer.tsx:58 | `padStart` pads on the left up to the width with the pad character and never cuts |
| Parsing.FractionValue | utils/parsingUtils.ts:18 | the digits after the dot denote a non-negative fraction |
| Parsing.ParseFloat | utils/parsingUtils.ts:18 | `parseFloat` of digits and dots is NaN or a non-negative number |
| Parsing.Segments | utils/parsingUtils.ts:11 | splitting a timestamp at `:` gives at least one segment, each made of digits and dots |
| Parsing.ColonSeconds | utils/parsingUtils.ts:11-16 | the colon branch sums to a non-negative number |
| Parsing.TimestampSeconds | utils/parsingUtils.ts:8-19 | a timestamp with a colon is never NaN; any value is non-negative |
| Parsing.ParseTimestamp | utils/parsingUtils.ts:8-19 | the method that accumulates `seconds` with `+=` returns exactly `TimestampSeconds` |
| Parsing.MatchAt | utils/parsingUtils.ts:37 | a match found at a position has its groups well placed inside the line, with a role letter where the pattern puts one |
| Parsing.HeaderStart | utils/parsingUtils.ts:37-45 | the position found is a match and no position before it matches |
| Parsing.FindHeader | utils/parsingUtils.ts:45-52 | a found header has a non-empty timestamp group of digits, `:` and `.`, and an `A`/`B` role letter in either case |
| Parsing.Kinds | utils/parsingUtils.ts:41-45 | each line is classified on its own; the per-element helper behind RunKeys and TranscriptWellFormed |
| Parsing.TrimmedEntries | utils/parsingUtils.ts:83 | the final `map` trims every entry's text, keeping order and count; used by TranscriptWellFormed and TranscriptContinued |
| Parsing.EntryRef.constructor | utils/parsingUtils.ts:57-61 | a new entry object holds the given speaker, text and timestamp |
| Parsing.AppendLine | utils/parsingUtils.ts:66-71 | `text +=` through the open object, already pushed or not, is one `Extend` step of the explicit state |
| Parsing.ApplyHeader | utils/parsingUtils.ts:47-68 | a header line's effect on the pushed objects: push the open one, then open a new entry or append through the alias |
| Parsing.ApplyMatch | utils/parsingUtils.ts:45-72 | one non-blank line's effect on the objects is one `Step` of the explicit state |
| Parsing.ApplyLine | utils/parsingUtils.ts:42-72 | one line, blank or not, has the effect of `Step` on its classification |
| Parsing.RunLine | utils/parsingUtils.ts:41-75 | one pass of the loop keeps the objects mirroring the state after one more line |
| Parsing.RunLines | utils/parsingUtils.ts:41-75 | after the loop the pushed objects and the open one mirror `Run` over all lines, aliases included |
| Parsing.TrimAll | utils/parsingUtils.ts:83 | reading out and trimming the pushed objects gives `TrimmedEntries` of their contents |
| Parsing.ParseTranscript | utils/parsingUtils.ts:28-84 | the method over heap objects returns exactly `TranscriptOf(text)` |
| Parsing.PushMirrors | utils/parsingUtils.ts:78-80 | pushing the open object at the end yields the frozen entries of the state |
| TranscriptProperties.ParseFloatPlain | utils/parsingUtils.ts:18 | a plain decimal `whole[.frac]` parses to the number it denotes |
| TranscriptProperties.ParseFloatPrefix | utils/parsingUtils.ts:18 | `parseFloat` reads the longest numeric prefix and ignores a further `.`-started tail |
| TranscriptProperties.ParseFloatNaN | utils/parsingUtils.ts:18 | `parseFloat` is NaN exactly when the text starts with neither a digit nor a dot followed by a digit |
| TranscriptProperties.TimestampWithColon | utils/parsingUtils.ts:10-16 | with a colon the value is last segment + 60 × second-last + 3600 × third-last, NaN segments adding nothing |
| TranscriptProperties.ColonIgnoresLeft | utils/parsingUtils.ts:11-15 | segments left of the hours do not change the value |
| TranscriptProperties.TimestampWithoutColon | utils/parsingUtils.ts:18 | without a colon the value is `parseFloat` of the text |
| TranscriptProperties.TimestampPlain | utils/parsingUtils.ts:8-19 | a plain decimal timestamp denotes its own value in seconds |
| TranscriptProperties.MatchAtIff | utils/parsingUtils.ts:37 | a match exists at a position exactly when the pattern can be laid over the line from there |
| TranscriptProperties.MatchAtExact | utils/parsingUtils.ts:37 | a shape laid over the line yields the groups at its positions |
| TranscriptProperties.MatchAtShape | utils/parsingUtils.ts:37 | conversely every match is such a shape |
| TranscriptProperties.NoHeaderBefore | utils/parsingUtils.ts:37-45 | no header shape starts before the position the search reports |
| TranscriptProperties.FindHeaderFound | utils/parsingUtils.ts:45 | a line is a header exactly when the pattern fits somewhere in it |
| TranscriptProperties.FindHeaderLeftmost | utils/parsingUtils.ts:45-52 | the groups reported are those of the leftmost fit; text before `[` is lost |
| TranscriptProperties.FindHeaderAtStart | utils/parsingUtils.ts:45-52 | a header at the start of the line reports its own timestamp, role and rest |
| TranscriptProperties.RestTextOfLine | utils/parsingUtils.ts:37 | the text group `\s*(.*)` within one line is the rest with leading spaces dropped |
| MachineProperties.OpenedEntry | utils/parsingUtils.ts:57-61 | an opened entry's text is trimmed |
| MachineProperties.KindsParsed | utils/parsingUtils.ts:53-56 | every header that opens an entry carries a parsed, non-negative timestamp; the step behind TranscriptWellFormed |
| MachineProperties.RunAppend | utils/parsingUtils.ts:41-75 | running over two line lists in a row is running over their concatenation |
| MachineProperties.PreambleIgnored | utils/parsingUtils.ts:69-74 | lines before the first opening header do not change the state |
| MachineProperties.PreambleDropped | utils/parsingUtils.ts:69-74 | preamble lines before the transcript are dropped |
| MachineProperties.NonBlank | utils/parsingUtils.ts:43 | the non-blank lines, none of them blank |
| MachineProperties.BlankLinesIgnored | utils/parsingUtils.ts:43 | blank lines change nothing wherever they stand |
| MachineProperties.KindsTrimEquivalent | utils/parsingUtils.ts:42 | lines with equal trimmed forms are classified alike |
| MachineProperties.FencesIgnored | utils/parsingUtils.ts:30 | removing code fences before parsing changes nothing |
| MachineProperties.RunKeepsGoodTimestamps | utils/parsingUtils.ts:53-61 | every entry in the state keeps a non-negative timestamp and a trimmed opening text |
| MachineProperties.TranscriptWellFormed | utils/parsingUtils.ts:53-83 | every emitted entry has a non-negative timestamp and a trimmed text |
| MachineProperties.StepOpens | utils/parsingUtils.ts:47-61 | an opening header freezes the open entry and opens its own |
| MachineProperties.KeysOfExtend | utils/parsingUtils.ts:69-71 | a continuation line changes only text, not speakers or timestamps |
| MachineProperties.KeysOfOpen | utils/parsingUtils.ts:48-61 | opening an entry appends it |
| MachineProperties.RunKeys | utils/parsingUtils.ts:41-80 | without NaN headers the entries map one-to-one, in order, to the opening header lines |
| MachineProperties.TranscriptKeys | utils/parsingUtils.ts:28-84 | the same for `parseTranscript`: speakers and timestamps are those of the opening headers, in order |
| MachineProperties.RunAllOpen | utils/parsingUtils.ts:41-80 | lines that all open an entry give one entry each, in order |
| MachineProperties.Conts | utils/parsingUtils.ts:69-71 | one continuation kind per trimmed line, in order |
| MachineProperties.RunContinuations | utils/parsingUtils.ts:69-71 | with an entry open, continuation lines are appended to its text in order, each after a `\n`, and nothing else of the state changes |
| MachineProperties.HeaderThenLines | utils/parsingUtils.ts:47-80 | an opening header then continuation lines give exactly one entry: the header's speaker and timestamp, its text followed by `\n` and each line |
| MachineProperties.ContinuationLine | utils/parsingUtils.ts:42-47 | a non-blank line in which the header pattern is not found continues the open entry with its trimmed form |
| MachineProperties.KindsContinued | utils/parsingUtils.ts:41-45 | a header line then non-header lines are classified as that header then continuations of the trimmed lines |
| MachineProperties.TranscriptContinued | utils/parsingUtils.ts:28-83 | `parseTranscript` of a header followed by non-blank, non-header lines is one entry whose text is the header text with each trimmed line appended after `\n`, trimmed at the end |
| MachineProperties.NaNHeaderAliases | utils/parsingUtils.ts:48-67 | a NaN header with an entry open pushes the open object once more and appends the line to every copy |
| MachineProperties.RunOpenThenNaN | utils/parsingUtils.ts:48-80 | an opening header then a NaN header give the same entry twice |
| TranscriptRoundTrip.SpeakerLetter | App.tsx:78 | the letter written for a speaker is read back as that speaker |
| TranscriptRoundTrip.HeaderTextMatch | App.tsx:78 | a formatted header is found with its own timestamp, role and text |
| TranscriptRoundTrip.HeaderLineParse | App.tsx:78 | a formatted line is a header whose trimmed text is the record's trimmed text |
| TranscriptRoundTrip.FormattedLines | App.tsx:78 | one formatted line per record, in order; the per-element helper behind RoundTrip |
| TranscriptRoundTrip.FormattedOpens | App.tsx:78 | a formatted record opens exactly the entry it stands for |
| TranscriptRoundTrip.JoinTrimEnd | utils/parsingUtils.ts:30 | trimming the end of joined lines trims only the last line |
| TranscriptRoundTrip.JoinLines | utils/parsingUtils.ts:30-33 | cleaning and splitting joined lines gives the lines back, the last one end-trimmed |
| TranscriptRoundTrip.LinesOfJoin | utils/parsingUtils.ts:30-42 | the parser sees one line per joined line, with the same trimmed form |
| TranscriptRoundTrip.EmptyTranscript | utils/parsingUtils.ts:28-84 | the empty text parses to no entries |
| TranscriptRoundTrip.RoundTrip | App.tsx:78 | formatting records and parsing the result gives back their plain decimal timestamps, speakers and trimmed texts, one entry per record in order |
| TranscriptRoundTrip.NaNHeaderLine | utils/parsingUtils.ts:37-53 | `[..] Speaker X: text` is a header whose timestamp is NaN |
| TranscriptRoundTrip.DotsNaN | utils/parsingUtils.ts:18 | `..` matches the timestamp group but parses to NaN |
| TranscriptRoundTrip.NaNHeaderDuplicates | utils/parsingUtils.ts:47-80 | a record followed by a NaN header parses to two identical entries |
| IntendedParsing.RunIntendedKeys | utils/parsingUtils.ts:62-67 | with the NaN branch as intended, entries map one-to-one to opening headers even when NaN headers occur |
| IntendedParsing.TranscriptIntendedKeys | utils/parsingUtils.ts:28-84 | the same for the whole corrected parse |
| IntendedParsing.RunIntendedAgrees | utils/parsingUtils.ts:62-67 | without NaN headers the correction changes nothing |
| IntendedParsing.TranscriptIntendedAgrees | utils/parsingUtils.ts:28-84 | without NaN headers the corrected parse is `parseTranscript` |
| IntendedParsing.RunIntendedOpenThenNaN | utils/parsingUtils.ts:62-67 | an opening header then a NaN header give one entry with the line appended |
| IntendedParsing.NaNHeaderContinues | utils/parsingUtils.ts:63-67 | a record followed by a NaN header parses to one entry |
| Keywords.Advance | utils/keywordUtils.ts:20-21 | the global search moves past each match, at least one character |
| Keywords.MatchesSound | utils/keywordUtils.ts:20-21 | every reported match is a whole-word occurrence, and matches do not overlap |
| Keywords.MatchesComplete | utils/keywordUtils.ts:20-21 | every whole-word occurrence is reported or lies inside a reported one |
| Keywords.WholeWord | utils/keywordUtils.ts:20 | for a keyword with word-character ends, a match is an occurrence not flanked by `[A-Za-z0-9_]` |
| Keywords.NotInsideWord | utils/keywordUtils.ts:20 | "features" holds no match of "feature" |
| Keywords.NoMatchesFrom | utils/keywordUtils.ts:21 | with no occurrence the search reports nothing |
| Keywords.OccurrencesIgnoreCase | utils/keywordUtils.ts:15-18 | case does not matter, in the text or in the keyword |
| Keywords.Routed | utils/keywordUtils.ts:23-28 | speaker B's matches go to the salesperson, any other speaker's to the customer |
| Keywords.LowerKeys | utils/keywordUtils.ts:10-12 | the counter keys are exactly the lower-cased keywords |
| Keywords.Analysis | utils/keywordUtils.ts:33-37 | one result per keyword, in order, under the keyword's own casing; none for no keywords |
| Keywords.InitCounters | utils/keywordUtils.ts:10-12 | the map has one zero counter per lower-cased keyword |
| Keywords.CountEntry | utils/keywordUtils.ts:15-30 | one entry's pass adds that entry's contribution to every counter and adds no key |
| Keywords.BumpStep | utils/keywordUtils.ts:21-28 | one keyword's matches are added to its counter on the speaker's side |
| Keywords.Results | utils/keywordUtils.ts:33-37 | reading the counters in keyword order gives the analysis |
| Keywords.AnalyzeKeywords | utils/keywordUtils.ts:3-38 | the method with its dictionary and nested loops computes exactly `Analysis` |
| Keywords.Multiplicity | utils/keywordUtils.ts:11-36 | the number of keywords sharing a counter is at most the number of keywords |
| Keywords.ContributionShared | utils/keywordUtils.ts:17-28 | each keyword sharing a counter adds that entry's matches once more |
| Keywords.TotalsShared | utils/keywordUtils.ts:14-31 | a counter holds the multiplicity times the speaker's mentions |
| Keywords.AnalysisCounts | utils/keywordUtils.ts:14-37 | each keyword reports the combined k-fold count of its lower-case form, per side |
| Keywords.MultiplicityOfMember | utils/keywordUtils.ts:10-12 | every keyword has its own counter |
| Keywords.MultiplicityDistinct | utils/keywordUtils.ts:11-36 | with distinct lower-case forms each keyword counts its matches once |
| Keywords.MentionsAppend | utils/keywordUtils.ts:14-31 | mentions over two transcripts add up |
| Keywords.AnalysisAppend | utils/keywordUtils.ts:14-31 | analysing t1 ++ t2 gives the pointwise sums of analysing each |
| Keywords.AnalysisEmptyTranscript | utils/keywordUtils.ts:10-12 | an empty transcript leaves every count at zero |
| Keywords.AnalysisIgnoresCase | utils/keywordUtils.ts:15-18 | changing the case of keywords or entry texts changes no count |
| Export.Keys | utils/exportUtils.ts:7 | the header keys, one per property, in order; the header row of CsvRoundTrip |
| Export.LookupFirst | utils/exportUtils.ts:12 | `row[key]` is the first property of that name, or missing when there is none |
| Export.DoubleQuotes | utils/exportUtils.ts:8-14 | doubling quotes never shortens the text |
| Export.EscapeCases | utils/exportUtils.ts:13-16 | a cell is quoted with inner quotes doubled exactly when it holds `"`, `,`, `\n` or `\r`, else written unchanged |
| Export.Cells | utils/exportUtils.ts:11-12 | one cell per header: missing values give the empty cell, extra keys are ignored; read back by CsvRoundTrip |
| Export.RowLines | utils/exportUtils.ts:10-18 | one line per row, in order; read back by CsvRoundTrip |
| Export.Unquote | utils/exportUtils.ts:14 | reading a quoted field consumes input |
| Export.BareEnd | utils/exportUtils.ts:16 | an unquoted field ends within the input |
| Export.UnquoteDoubled | utils/exportUtils.ts:14 | a quoted field with doubled quotes is read back as the cell |
| Export.FieldParses | utils/exportUtils.ts:8-16 | each written field, header or cell, is read back as its text |
| Export.RecordParses | utils/exportUtils.ts:8-17 | a line of fields joined by `,` is read back as its cells |
| Export.CsvParses | utils/exportUtils.ts:20 | lines joined by `\n` are read back as their records |
| Export.CsvRecords | utils/exportUtils.ts:7-18 | the header record is the first row's keys, then one record of cells per row |
| Export.CsvRoundTrip | utils/exportUtils.ts:4-21 | an RFC 4180 field parser reads back the header names and every cell string |
| Export.CsvEmpty | utils/exportUtils.ts:5 | no rows give the empty text |
| Export.SpeakerName | utils/exportUtils.ts:38 | speaker A is "Customer", anyone else "Salesperson" |
| Export.TranscriptRows | utils/exportUtils.ts:36-40 | one row per entry, in order; read back by TranscriptCsvRoundTrip |
| Export.TranscriptRowShape | utils/exportUtils.ts:36-40 | the columns are timestamp, speaker, text |
| Export.TranscriptCsvRoundTrip | utils/exportUtils.ts:35-41 | the transcript CSV reads back as the three headers and one record per entry |
| Export.TranscriptCsvEmpty | utils/exportUtils.ts:5-41 | no entries give the empty text |
| Export.AppendLines | utils/exportUtils.ts:58-100 | a `forEach` appends exactly one line per item, in order |
| Export.AppendCard | utils/exportUtils.ts:54-67 | the coaching card and next steps sections |
| Export.AppendInsights | utils/exportUtils.ts:69-78 | the AI insights section |
| Export.AppendVocal | utils/exportUtils.ts:80-92 | the vocal delivery section |
| Export.AppendKeywords | utils/exportUtils.ts:94-102 | the keyword tracker section |
| Export.AppendComment | utils/exportUtils.ts:104-109 | the manager's comments section |
| Export.ExportSummary | utils/exportUtils.ts:50-110 | the method built with `+=` returns exactly `SummaryText` |
| Export.LinesSplit | utils/exportUtils.ts:58-66 | the bullet lines read back, one per item, in original order |
| Export.InsightsOptional | utils/exportUtils.ts:70 | the AI insights section appears exactly when insights are present |
| Export.VocalOptional | utils/exportUtils.ts:81 | the vocal delivery section appears exactly when it is present |
| Export.FillersOptional | utils/exportUtils.ts:87 | the filler word list appears exactly when it is non-empty |
| Export.KeywordsOptional | utils/exportUtils.ts:95 | the keyword tracker section appears exactly when the analysis is present and non-empty |
| Export.CommentOptional | utils/exportUtils.ts:105 | the comment section appears exactly when the comment is non-empty |
| KeywordTrackerView.MaxMentions | components/KeywordTracker.tsx:17-20 | the scale is at least 1, no count exceeds it, and above 1 it is some count |
| KeywordTrackerView.PercentageBounds | components/KeywordTracker.tsx:22-24 | a count within the scale gives a bar within 0 to 100 percent |
| KeywordTrackerView.PercentageFull | components/KeywordTracker.tsx:22-24 | the count equal to the scale gives 100 percent |
| KeywordTrackerView.PercentageZero | components/KeywordTracker.tsx:22-24 | a zero count gives 0 percent |
| KeywordTrackerView.Render | components/KeywordTracker.tsx:14-62 | nothing exactly when the data is missing or empty; otherwise one block per entry in order, the speaker-B row showing salesperson mentions and the speaker-A row customer mentions |
| KeywordTrackerView.RenderBounded | components/KeywordTracker.tsx:17-24 | every bar drawn lies within its track |
| KeywordTrackerView.RenderScale | components/KeywordTracker.tsx:17-24 | on either row, every bar whose count is the largest on display is at 100% and every zero-count bar is at 0% |
| KeywordTrackerView.RenderPeak | components/KeywordTracker.tsx:17-24 | when some count is non-zero, some bar is at 100% |
| KeywordTrackerView.RenderAllZero | components/KeywordTracker.tsx:19-23 | with all counts zero the scale is 1 and every bar is empty |
| AudioPlayerView.MinutesBounds | components/AudioPlayer.tsx:56 | for a non-negative time the minutes are the whole minutes elapsed |
| AudioPlayerView.SecondsBounds | components/AudioPlayer.tsx:57 | for a non-negative time the seconds field is 0 to 59 |
| AudioPlayerView.MinutesSeconds | components/AudioPlayer.tsx:56-57 | minutes × 60 + seconds is the whole seconds elapsed |
| AudioPlayerView.FieldValue | components/AudioPlayer.tsx:58 | a field is at least two digits and reads back as its number |
| AudioPlayerView.FieldWidth | components/AudioPlayer.tsx:58 | a field is padded only below 10 and never cut, so 100 or more minutes show three or more digits |
| AudioPlayerView.FormatTimeSplit | components/AudioPlayer.tsx:55-59 | the display is the minutes field, a colon, the seconds field |
| AudioPlayerView.FormatTimeReadsBack | components/AudioPlayer.tsx:55-59 | the display reads back as a clock whose two-digit seconds and minutes give the whole seconds elapsed |
| AudioPlayerView.FormatTimeZero | components/AudioPlayer.tsx:12-81 | before any data arrives both displays read "00:00" |
| AudioPlayerView.Player.constructor | components/AudioPlayer.tsx:11-13 | a new player is paused at time 0 of a track of length 0 |
| AudioPlayerView.Player.ButtonLabel | components/AudioPlayer.tsx:69 | the button reads "Pause" exactly while playing and "Play" otherwise |
| AudioPlayerView.Player.TogglePlayPause | components/AudioPlayer.tsx:37-46 | the button flips the play state when the element exists and does nothing otherwise |
| AudioPlayerView.Player.Ended | components/AudioPlayer.tsx:28 | the 'ended' event stops playback |
| AudioPlayerView.Player.LoadedData | components/AudioPlayer.tsx:19-22 | 'loadeddata' takes over the element's duration and position |
| AudioPlayerView.Player.TimeUpdate | components/AudioPlayer.tsx:24 | 'timeupdate' takes over the element's position |
| AudioPlayerView.Player.Seek | components/AudioPlayer.tsx:48-53 | seeking sets the position the element reports, when it exists |
| OnboardingTourView.HighlightSurrounds | components/OnboardingTour.tsx:18-53 | every edge of the highlight lies 8 outside the same edge of the target |
| OnboardingTourView.PlacedDefault | components/OnboardingTour.tsx:68 | a step without a position is placed below its target |
| OnboardingTourView.PlacedBeside | components/OnboardingTour.tsx:17-92 | the popover is 12 away from the target's edge on the requested side, and centred along that edge |
| OnboardingTourView.Next | components/OnboardingTour.tsx:114-120 | `onClose` is called exactly on or past the last step |
| OnboardingTourView.NextInRange | components/OnboardingTour.tsx:114-120 | Next keeps the step within the tour and closes exactly on the last step |
| OnboardingTourView.PrevInRange | components/OnboardingTour.tsx:122-126 | Back keeps the step within the tour and does nothing only on the first step |
| OnboardingTourView.WalkInRange | components/OnboardingTour.tsx:21-126 | from step 0 of a non-empty tour, any presses keep the step within the tour |
| OnboardingTourView.WalkForward | components/OnboardingTour.tsx:114-120 | pressing Next k times from the start reaches step k |
| OnboardingTourView.Render | components/OnboardingTour.tsx:25-149 | nothing exactly when closed or with no step at the current index; otherwise the step's title and text and the counter current+1 of n |
| OnboardingTourView.RenderButtons | components/OnboardingTour.tsx:128-161 | Back is shown exactly off the first step; the button reads "Finish" exactly on the last step and "Next" before it |
| OnboardingTourView.RenderEmpty | components/OnboardingTour.tsx:25-112 | an empty tour renders nothing |
| OnboardingTourView.WalkRenders | components/OnboardingTour.tsx:110-126 | wherever the presses lead, an open non-empty tour still renders |
| OnboardingTourView.Tour.constructor | components/OnboardingTour.tsx:21-23 | the tour starts at step 0 with no styles computed |
| OnboardingTourView.Tour.HandleNext | components/OnboardingTour.tsx:114-120 | the step advances below the last step; on the last one `onClose` is called once and the step is kept |
| OnboardingTourView.Tour.HandlePrev | components/OnboardingTour.tsx:122-126 | the step goes back only above the first step |
| OnboardingTourView.Tour.CalculatePosition | components/OnboardingTour.tsx:27-95 | closed or without a step nothing changes; without a target the highlight hides and the popover centres; otherwise the highlight surrounds the target and the popover is placed beside it |
| DashboardSettingsView.WithVisible | components/DashboardSettings.tsx:39 | the spread copy sets the one key and keeps all others |
| DashboardSettingsView.HandleToggle | components/DashboardSettings.tsx:38-40 | the panel is flipped and every other panel keeps its value |
| DashboardSettingsView.LayoutsAgree | components/DashboardSettings.tsx:39 | layouts that agree on every panel are equal |
| DashboardSettingsView.ToggleTwice | components/DashboardSettings.tsx:39 | flipping the same panel twice restores the layout |
| DashboardSettingsView.ToggleAt | components/DashboardSettings.tsx:39 | one flip seen at one panel |
| DashboardSettingsView.WithCommutes | components/DashboardSettings.tsx:39 | setting two different keys commutes |
| DashboardSettingsView.ToggleCommutes | components/DashboardSettings.tsx:39 | flips of two panels commute |
| DashboardSettingsView.PanelsListed | components/DashboardSettings.tsx:11-57 | all eight panels are listed with eight different labels |
| DashboardSettingsView.InitiallyAllVisible | components/Dashboard.tsx:22-31 | every panel starts out visible |
| DashboardSettingsView.Menu | components/DashboardSettings.tsx:52-68 | switches exactly while open, one per panel in key order, each labelled and checked by its panel's visibility |
| DashboardSettingsView.MenuToggle | components/DashboardSettings.tsx:38-68 | clicking a switch flips exactly that switch |
| DashboardSettingsView.Dropdown.constructor | components/DashboardSettings.tsx:23 | the dropdown starts closed |
| DashboardSettingsView.Dropdown.ButtonClick | components/DashboardSettings.tsx:45 | the settings button flips the dropdown |
| DashboardSettingsView.Dropdown.MouseDown | components/DashboardSettings.tsx:26-36 | a mousedown outside closes the dropdown, one inside changes nothing |
| KeywordGlossaryView.Toggle | components/KeywordGlossary.tsx:79-81 | the clicked item is open afterwards exactly when it was not open before, and every other item is closed |
| KeywordGlossaryView.AtMostOneOpen | components/KeywordGlossary.tsx:78-98 | after any clicks at most one of the glossary's items renders expanded, and that one is the item clicked last |
| KeywordGlossaryView.InitiallyClosed | components/KeywordGlossary.tsx:77 | nothing is open before the first click |
| KeywordGlossaryView.OpenIsLastClicked | components/KeywordGlossary.tsx:77-81 | the open item, if any, is the one clicked last |
| KeywordGlossaryView.LastClickedFlips | components/KeywordGlossary.tsx:79-97 | the item clicked last is open exactly when it was not open just before |
| KeywordGlossaryView.OpenWithinGlossary | components/KeywordGlossary.tsx:5-98 | clicks on glossary items only ever open a glossary item |
| KeywordGlossaryView.Glossary.constructor | components/KeywordGlossary.tsx:77 | the accordion starts with nothing open |
| KeywordGlossaryView.Glossary.HandleToggle | components/KeywordGlossary.tsx:79-81 | a click replaces the open item by `Toggle` of it; only the clicked item can be open |
| KeywordInputView.AddedText | components/KeywordInput.tsx:15-17 | text is handed on exactly when the input is not blank, and it is the trimmed input |
| KeywordInputView.AddedTextTrimmed | components/KeywordInput.tsx:16-17 | the handed-on text is non-empty and has no whitespace at either end |
| KeywordInputView.DisabledWhenNothingToAdd | components/KeywordInput.tsx:60 | Add is disabled exactly when clicking it would hand nothing on |
| KeywordInputView.AddedTextFromInput | components/KeywordInput.tsx:16 | no character is invented |
| KeywordInputView.Chips | components/KeywordInput.tsx:36-46 | one chip per keyword, its remove button passing that keyword's text; the placeholder shows exactly when there are none |
| KeywordInputView.KeywordInput.constructor | components/KeywordInput.tsx:13 | the field starts empty |
| KeywordInputView.KeywordInput.Change | components/KeywordInput.tsx:52 | typing sets the field |
| KeywordInputView.KeywordInput.HandleAdd | components/KeywordInput.tsx:15-20 | hands on `AddedText` of the field, clearing it exactly when something was handed on |
| KeywordInputView.KeywordInput.HandleKeyDown | components/KeywordInput.tsx:22-27 | Enter runs the add path; other keys do nothing |

## Left out

- Network and model calls (`services/geminiService.ts`), the prompt templates (`utils/analysisUtils.ts`) and the orchestration in `App.tsx` are not modelled. From `App.tsx` only the line formatter at line 78 is kept, as the parser's round-trip partner.
- `triggerDownload` is Blob, object URL and DOM plumbing, so it is not modelled. The export functions are modelled up to the text they hand it.
- `exportSentimentToCsv` is not modelled separately: it passes its rows straight to `createCsvContent`, which is modelled for any rows.
- IEEE floating point is not modelled: numbers are exact reals and NaN is `None`. Durations reported as NaN by the audio element are not modelled.
- Parsing.ParseFloat: only defined on text of digits and dots, the only text the header pattern's timestamp group lets through. Signs, exponents and `Infinity` are not modelled.
- Converting a number to text is a parameter (`numberText`) of the transcript CSV mapping. In the round trip, a timestamp is a plain non-negative decimal written as digits.
- Keywords.Analysis: requires keywords without regular expression metacharacters. The source builds a `RegExp` from the unescaped keyword, which throws or matches otherwise; that is not modelled.
- Unicode whitespace, case mapping and word characters are not modelled: the model uses ASCII only.
- OnboardingTourView.Tour.CalculatePosition: the target's rectangle is an input. `querySelector`, `scrollIntoView`, the resize listener and the `setTimeout` delays are not modelled. The rectangle's bottom and right edges are derived from top, left, width and height.
- AudioPlayerView.Player.Seek: the element's own clamping of the position is not modelled; the position it reports after the seek is a parameter. The audio element, its events' timing and listener clean-up are not modelled either.
- The glossary's definition and importance texts, and the chips' styling, are static copy and are not modelled.
- `components/SentimentGraph.tsx` only hands data to a charting library, so it is not modelled. `components/ShareButton.tsx` depends on timers and the clipboard, so it is not modelled. The remaining components are layout and static text, so they are not modelled.
## Findings

| source | as written | input that shows it | evidently intended | confidence | as-written member | corrected member |
|---|---|---|---|---|---|---|
| utils/parsingUtils.ts:47-50,62-67 | With an entry open, a header whose timestamp is NaN first pushes the open entry, then appends its line through the same object. That object is pushed again later, so the entry appears twice, both copies with the line. | `[1] Speaker A: hi` then `[..] Speaker B: x` | The comment at lines 63-64 says the line is treated as a continuation of the previous text: one entry, with the line appended | not executed | TranscriptRoundTrip.NaNHeaderDuplicates | IntendedParsing.NaNHeaderContinues |
