/** utils/keywordUtils.ts: per-speaker counts of whole-word, case-insensitive
    keyword mentions. The regex `\bkw\b` with the `g` flag is modelled for a
    keyword without regex metacharacters: `\b` is the boundary between an
    ASCII word character and anything else (or an end of the text). */
module Keywords {
  import opened Text
  import opened Parsing

  datatype Keyword = Keyword(text: string)

  datatype KeywordAnalysis = KeywordAnalysis(keyword: string, salespersonMentions: nat, customerMentions: nat)

  /** One `keywordMap` value. */
  datatype Counts = Counts(sales: nat, customer: nat)

  const Zero := Counts(0, 0)

  function Add(x: Counts, y: Counts): Counts {
    Counts(x.sales + y.sales, x.customer + y.customer)
  }

  // ---------------------------------------------------------------------
  // The regex

  /** `\w`: `[A-Za-z0-9_]`. */
  predicate IsWordChar(c: char) {
    'a' <= c <= 'z' || 'A' <= c <= 'Z' || '0' <= c <= '9' || c == '_'
  }

  /** The characters a keyword may not contain for it to be matched literally. */
  predicate IsMetaChar(c: char) {
    c in "\\^$.|?*+()[]{}"
  }

  predicate Literal(kw: string) {
    forall k :: 0 <= k < |kw| ==> !IsMetaChar(kw[k])
  }

  predicate WordAt(s: string, i: int) {
    0 <= i < |s| && IsWordChar(s[i])
  }

  /** `\b` at position `i` of `s`. */
  predicate Boundary(s: string, i: int) {
    WordAt(s, i - 1) != WordAt(s, i)
  }

  /** `\bkw\b` matches `s` starting at `p`. */
  predicate MatchHere(s: string, kw: string, p: nat) {
    p + |kw| <= |s| && s[p..p + |kw|] == kw && Boundary(s, p) && Boundary(s, p + |kw|)
  }

  /** How far `lastIndex` moves past a match: its length, or one for an
      empty match. */
  function Advance(kw: string): (n: nat)
    ensures n >= 1 && n >= |kw|
  {
    if |kw| == 0 then 1 else |kw|
  }

  /** The start positions of the matches `s.match(/\bkw\b/g)` finds when the
      search starts at `i`: each search takes the leftmost match at or after
      the previous one's end. */
  function MatchesFrom(s: string, kw: string, i: nat): seq<nat>
    decreases |s| + 1 - i
  {
    if i > |s| then []
    else if MatchHere(s, kw, i) then [i] + MatchesFrom(s, kw, i + Advance(kw))
    else MatchesFrom(s, kw, i + 1)
  }

  function Matches(s: string, kw: string): seq<nat> {
    MatchesFrom(s, kw, 0)
  }

  /** `matches.length`, or nothing added when `matches` is null. */
  function CountMatches(s: string, kw: string): nat {
    |Matches(s, kw)|
  }

  /** Every listed position is a match at or after `i`, and each starts at
      or after the end of the one before: the matches do not overlap. */
  lemma {:induction false} MatchesSound(s: string, kw: string, i: nat)
    ensures forall k :: 0 <= k < |MatchesFrom(s, kw, i)| ==>
      i <= MatchesFrom(s, kw, i)[k] && MatchHere(s, kw, MatchesFrom(s, kw, i)[k])
    ensures forall k :: 0 < k < |MatchesFrom(s, kw, i)| ==>
      MatchesFrom(s, kw, i)[k - 1] + Advance(kw) <= MatchesFrom(s, kw, i)[k]
    decreases |s| + 1 - i
  {
    if i <= |s| {
      if MatchHere(s, kw, i) {
        MatchesSound(s, kw, i + Advance(kw));
      } else {
        MatchesSound(s, kw, i + 1);
      }
    }
  }

  /** A match position the list leaves out lies inside a listed match: the
      search is greedy from the left, not exhaustive. */
  lemma {:induction false} MatchesComplete(s: string, kw: string, i: nat, q: nat)
    requires i <= q && MatchHere(s, kw, q)
    ensures q in MatchesFrom(s, kw, i) ||
      exists k :: 0 <= k < |MatchesFrom(s, kw, i)| && MatchesFrom(s, kw, i)[k] < q < MatchesFrom(s, kw, i)[k] + Advance(kw)
    decreases |s| + 1 - i
  {
    if q == i {
    } else if MatchHere(s, kw, i) {
      var rest := MatchesFrom(s, kw, i + Advance(kw));
      assert MatchesFrom(s, kw, i) == [i] + rest;
      if q < i + Advance(kw) {
        assert MatchesFrom(s, kw, i)[0] == i;
      } else {
        MatchesComplete(s, kw, i + Advance(kw), q);
        if q !in rest {
          var k :| 0 <= k < |rest| && rest[k] < q < rest[k] + Advance(kw);
          assert MatchesFrom(s, kw, i)[k + 1] == rest[k];
        }
      }
    } else {
      MatchesComplete(s, kw, i + 1, q);
    }
  }

  /** For a keyword that begins and ends with a word character, `\b` on both
      sides means the occurrence is not flanked by word characters. */
  lemma WholeWord(s: string, kw: string, p: nat)
    requires |kw| > 0 && IsWordChar(kw[0]) && IsWordChar(kw[|kw| - 1])
    ensures MatchHere(s, kw, p) <==>
      p + |kw| <= |s| && s[p..p + |kw|] == kw && !WordAt(s, p - 1) && !WordAt(s, p + |kw|)
  {
    if p + |kw| <= |s| && s[p..p + |kw|] == kw {
      assert s[p] == kw[0] && s[p + |kw| - 1] == kw[|kw| - 1];
    }
  }

  /** Inside a longer word the keyword is not counted. */
  lemma NotInsideWord()
    ensures CountMatches("features", "feature") == 0
  {
    var s := "features";
    forall p: nat | p <= |s| ensures !MatchHere(s, "feature", p) {
      if p == 0 {
        assert WordAt(s, 7);
      }
    }
    NoMatchesFrom(s, "feature", 0);
  }

  lemma {:induction false} NoMatchesFrom(s: string, kw: string, i: nat)
    requires forall p: nat :: i <= p <= |s| ==> !MatchHere(s, kw, p)
    ensures MatchesFrom(s, kw, i) == []
    decreases |s| + 1 - i
  {
    if i <= |s| {
      NoMatchesFrom(s, kw, i + 1);
    }
  }

  // ---------------------------------------------------------------------
  // Counting

  /** Matches of the lower-cased keyword in the lower-cased entry text
      (keywordUtils.ts:15, 18-21). */
  function Occurrences(text: string, kw: string): nat {
    CountMatches(ToLower(text), ToLower(kw))
  }

  /** Case does not matter, on either side. */
  lemma OccurrencesIgnoreCase(text: string, kw: string)
    ensures Occurrences(text, kw) == Occurrences(ToLower(text), ToLower(kw))
  {
    ToLowerIdempotent(text);
    ToLowerIdempotent(kw);
  }

  /** keywordUtils.ts:23-28: speaker B's matches are the salesperson's,
      anyone else's the customer's. */
  function Routed(speaker: Speaker, n: nat): (c: Counts)
    ensures speaker == B ==> c == Counts(n, 0)
    ensures speaker != B ==> c == Counts(0, n)
  {
    if speaker == B then Counts(n, 0) else Counts(0, n)
  }

  /** What one keyword adds, for one entry, to the counter `key`. */
  function More(e: TranscriptEntry, kw: Keyword, key: string): Counts {
    if ToLower(kw.text) == key then Routed(e.speaker, Occurrences(e.text, kw.text)) else Zero
  }

  /** What the keywords `kws` add, for one entry, to the counter `key`: each
      keyword whose lower-case form is `key` adds its own matches. */
  function Contribution(e: TranscriptEntry, kws: seq<Keyword>, key: string): Counts
    decreases |kws|
  {
    if kws == [] then Zero
    else Add(Contribution(e, kws[..|kws| - 1], key), More(e, kws[|kws| - 1], key))
  }

  /** The counter `key` after the entries `entries` (keywordUtils.ts:14-31). */
  function Totals(entries: seq<TranscriptEntry>, kws: seq<Keyword>, key: string): Counts
    decreases |entries|
  {
    if entries == [] then Zero
    else Add(Totals(entries[..|entries| - 1], kws, key), Contribution(entries[|entries| - 1], kws, key))
  }

  /** The lower-case forms of the keywords: the keys of `keywordMap`. */
  function LowerKeys(kws: seq<Keyword>): (keys: set<string>)
    ensures forall j :: 0 <= j < |kws| ==> ToLower(kws[j].text) in keys
    ensures forall key :: key in keys ==> exists j :: 0 <= j < |kws| && key == ToLower(kws[j].text)
  {
    set j | 0 <= j < |kws| :: ToLower(kws[j].text)
  }

  /** The value `analyzeKeywords(transcript, keywords)` returns: one result
      per keyword, in order, with its own casing and its counter's values. */
  function Analysis(transcript: seq<TranscriptEntry>, kws: seq<Keyword>): (r: seq<KeywordAnalysis>)
    requires forall j :: 0 <= j < |kws| ==> Literal(kws[j].text)
    ensures |r| == |kws|
    ensures forall j :: 0 <= j < |kws| ==> r[j].keyword == kws[j].text
  {
    seq(|kws|, j requires 0 <= j < |kws| =>
      KeywordAnalysis(kws[j].text, Totals(transcript, kws, ToLower(kws[j].text)).sales,
                      Totals(transcript, kws, ToLower(kws[j].text)).customer))
  }

  // ---------------------------------------------------------------------
  // The source's loops

  /** keywordUtils.ts:10-12: a zero counter per lower-cased keyword. */
  method InitCounters(keywords: seq<Keyword>) returns (keywordMap: map<string, Counts>)
    ensures keywordMap.Keys == LowerKeys(keywords)
    ensures forall key :: key in keywordMap ==> keywordMap[key] == Zero
  {
    keywordMap := map[];
    for j := 0 to |keywords|
      invariant keywordMap.Keys == LowerKeys(keywords[..j])
      invariant forall key :: key in keywordMap ==> keywordMap[key] == Zero
    {
      assert keywords[..j + 1] == keywords[..j] + [keywords[j]];
      keywordMap := keywordMap[ToLower(keywords[j].text) := Zero];
    }
    assert keywords[..|keywords|] == keywords;
  }

  /** keywordUtils.ts:15-30: one entry's matches added to the counters. */
  method CountEntry(keywordMap: map<string, Counts>, entry: TranscriptEntry, keywords: seq<Keyword>)
    returns (keywordMap': map<string, Counts>)
    requires keywordMap.Keys == LowerKeys(keywords)
    ensures keywordMap'.Keys == keywordMap.Keys
    ensures forall key :: key in keywordMap' ==> keywordMap'[key] == Add(keywordMap[key], Contribution(entry, keywords, key))
  {
    keywordMap' := keywordMap;
    var text := ToLower(entry.text);
    for j := 0 to |keywords|
      invariant keywordMap'.Keys == keywordMap.Keys
      invariant forall key :: key in keywordMap' ==> keywordMap'[key] == Add(keywordMap[key], Contribution(entry, keywords[..j], key))
    {
      var keywordLower := ToLower(keywords[j].text);
      var matches := CountMatches(text, keywordLower);
      ghost var prev := keywordMap';
      if matches > 0 {
        var c := keywordMap'[keywordLower];
        var c';
        if entry.speaker == B {
          c' := Counts(c.sales + matches, c.customer);
        } else {
          c' := Counts(c.sales, c.customer + matches);
        }
        keywordMap' := keywordMap'[keywordLower := c'];
        BumpStep(prev, keywordMap', entry, keywords[j], matches, c');
      } else {
        BumpStep(prev, keywordMap', entry, keywords[j], matches, Zero);
      }
      AddStep(keywordMap, prev, keywordMap', entry, keywords, j);
    }
    assert keywords[..|keywords|] == keywords;
  }

  /** keywordUtils.ts:3-38. */
  method AnalyzeKeywords(transcript: seq<TranscriptEntry>, keywords: seq<Keyword>) returns (result: seq<KeywordAnalysis>)
    requires forall j :: 0 <= j < |keywords| ==> Literal(keywords[j].text)
    ensures result == Analysis(transcript, keywords)
  {
    if |keywords| == 0 {
      return [];
    }
    var keywordMap := InitCounters(keywords);
    for t := 0 to |transcript|
      invariant keywordMap.Keys == LowerKeys(keywords)
      invariant forall key :: key in keywordMap ==> keywordMap[key] == Totals(transcript[..t], keywords, key)
    {
      ghost var prev := keywordMap;
      keywordMap := CountEntry(keywordMap, transcript[t], keywords);
      EntryStep(prev, keywordMap, transcript, t, keywords);
    }
    assert transcript[..|transcript|] == transcript;
    result := Results(keywordMap, transcript, keywords);
  }

  /** keywordUtils.ts:33-37: each keyword reads its lower-cased counter. */
  method Results(keywordMap: map<string, Counts>, transcript: seq<TranscriptEntry>, keywords: seq<Keyword>)
    returns (result: seq<KeywordAnalysis>)
    requires forall j :: 0 <= j < |keywords| ==> Literal(keywords[j].text)
    requires keywordMap.Keys == LowerKeys(keywords)
    requires forall key :: key in keywordMap ==> keywordMap[key] == Totals(transcript, keywords, key)
    ensures result == Analysis(transcript, keywords)
  {
    result := [];
    for j := 0 to |keywords|
      invariant |result| == j
      invariant forall i :: 0 <= i < j ==> result[i] == Analysis(transcript, keywords)[i]
    {
      var c := keywordMap[ToLower(keywords[j].text)];
      result := result + [KeywordAnalysis(keywords[j].text, c.sales, c.customer)];
    }
  }

  /** One iteration of the inner loop adds one keyword's share to its counter. */
  lemma BumpStep(prev: map<string, Counts>, next: map<string, Counts>, e: TranscriptEntry, kw: Keyword, matches: nat, c: Counts)
    requires ToLower(kw.text) in prev && matches == Occurrences(e.text, kw.text)
    requires matches > 0 ==> c == Add(prev[ToLower(kw.text)], Routed(e.speaker, matches))
    requires next == if matches == 0 then prev else prev[ToLower(kw.text) := c]
    ensures next.Keys == prev.Keys
    ensures forall key :: key in next ==> next[key] == Add(prev[key], More(e, kw, key))
  {
  }

  lemma AddStep(start: map<string, Counts>, prev: map<string, Counts>, next: map<string, Counts>,
                e: TranscriptEntry, kws: seq<Keyword>, j: nat)
    requires j < |kws|
    requires prev.Keys == start.Keys && next.Keys == prev.Keys
    requires forall key :: key in prev ==> prev[key] == Add(start[key], Contribution(e, kws[..j], key))
    requires forall key :: key in next ==> next[key] == Add(prev[key], More(e, kws[j], key))
    ensures forall key :: key in next ==> next[key] == Add(start[key], Contribution(e, kws[..j + 1], key))
  {
    forall key | key in next ensures next[key] == Add(start[key], Contribution(e, kws[..j + 1], key)) {
      ContributionSnoc(e, kws, j, key);
    }
  }

  /** One iteration of the outer loop adds one entry's contribution. */
  lemma EntryStep(prev: map<string, Counts>, next: map<string, Counts>, entries: seq<TranscriptEntry>, t: nat, kws: seq<Keyword>)
    requires t < |entries| && next.Keys == prev.Keys
    requires forall key :: key in prev ==> prev[key] == Totals(entries[..t], kws, key)
    requires forall key :: key in next ==> next[key] == Add(prev[key], Contribution(entries[t], kws, key))
    ensures forall key :: key in next ==> next[key] == Totals(entries[..t + 1], kws, key)
  {
    assert entries[..t + 1][..t] == entries[..t];
    forall key | key in next ensures next[key] == Totals(entries[..t + 1], kws, key) {
      assert Totals(entries[..t + 1], kws, key) == Add(Totals(entries[..t], kws, key), Contribution(entries[t], kws, key));
    }
  }

  /** One more keyword in the inner loop. */
  lemma ContributionSnoc(e: TranscriptEntry, kws: seq<Keyword>, j: nat, key: string)
    requires j < |kws|
    ensures Contribution(e, kws[..j + 1], key) == Add(Contribution(e, kws[..j], key), More(e, kws[j], key))
  {
    assert kws[..j + 1][..j] == kws[..j];
  }

  // ---------------------------------------------------------------------
  // Properties

  /** How many keywords share the counter `key`. */
  function Multiplicity(kws: seq<Keyword>, key: string): (n: nat)
    ensures n <= |kws|
    decreases |kws|
  {
    if kws == [] then 0
    else Multiplicity(kws[..|kws| - 1], key) + (if ToLower(kws[|kws| - 1].text) == key then 1 else 0)
  }

  /** The matches of `key` in the lower-cased texts of speaker `sp`'s entries. */
  function Mentions(entries: seq<TranscriptEntry>, sp: Speaker, key: string): nat
    decreases |entries|
  {
    if entries == [] then 0
    else
      Mentions(entries[..|entries| - 1], sp, key) +
      (if entries[|entries| - 1].speaker == sp then CountMatches(ToLower(entries[|entries| - 1].text), key) else 0)
  }

  /** Each keyword sharing the counter adds the same matches. */
  lemma {:induction false} ContributionShared(e: TranscriptEntry, kws: seq<Keyword>, key: string)
    ensures Contribution(e, kws, key) == Routed(e.speaker, Multiplicity(kws, key) * CountMatches(ToLower(e.text), key))
    decreases |kws|
  {
    if kws != [] {
      var init := kws[..|kws| - 1];
      var last := kws[|kws| - 1];
      ContributionShared(e, init, key);
      var n := CountMatches(ToLower(e.text), key);
      var m := Multiplicity(init, key);
      assert Contribution(e, kws, key) == Add(Routed(e.speaker, m * n), More(e, last, key));
      if ToLower(last.text) == key {
        assert More(e, last, key) == Routed(e.speaker, n);
        Distribute(n, m, 1);
        assert Multiplicity(kws, key) == m + 1;
      } else {
        assert Multiplicity(kws, key) == m;
      }
    }
  }

  lemma Distribute(m: nat, a: nat, b: nat)
    ensures m * (a + b) == m * a + m * b
    ensures (a + b) * m == a * m + b * m
  {
  }

  /** A counter holds, per speaker, its multiplicity times that speaker's
      matches; speaker B's go to the salesperson, A's to the customer. */
  lemma {:induction false} TotalsShared(entries: seq<TranscriptEntry>, kws: seq<Keyword>, key: string)
    ensures Totals(entries, kws, key) ==
      Counts(Multiplicity(kws, key) * Mentions(entries, B, key), Multiplicity(kws, key) * Mentions(entries, A, key))
    decreases |entries|
  {
    if entries != [] {
      var init, e := entries[..|entries| - 1], entries[|entries| - 1];
      TotalsShared(init, kws, key);
      ContributionShared(e, kws, key);
      var m, n := Multiplicity(kws, key), CountMatches(ToLower(e.text), key);
      if e.speaker == B {
        Distribute(m, Mentions(init, B, key), n);
      } else {
        Distribute(m, Mentions(init, A, key), n);
      }
    }
  }

  /** What each result reports: the number of keywords sharing its lower-case
      form times the matches of that form in speaker B's (salesperson) and
      speaker A's (customer) entries. */
  lemma AnalysisCounts(transcript: seq<TranscriptEntry>, kws: seq<Keyword>, j: nat)
    requires forall i :: 0 <= i < |kws| ==> Literal(kws[i].text)
    requires j < |kws|
    ensures Analysis(transcript, kws)[j].salespersonMentions ==
      Multiplicity(kws, ToLower(kws[j].text)) * Mentions(transcript, B, ToLower(kws[j].text))
    ensures Analysis(transcript, kws)[j].customerMentions ==
      Multiplicity(kws, ToLower(kws[j].text)) * Mentions(transcript, A, ToLower(kws[j].text))
  {
    TotalsShared(transcript, kws, ToLower(kws[j].text));
  }

  /** Every keyword has its own counter at least: multiplicity one or more. */
  lemma {:induction false} MultiplicityOfMember(kws: seq<Keyword>, j: nat)
    requires j < |kws|
    ensures Multiplicity(kws, ToLower(kws[j].text)) >= 1
    decreases |kws|
  {
    if j < |kws| - 1 {
      assert kws[..|kws| - 1][j] == kws[j];
      MultiplicityOfMember(kws[..|kws| - 1], j);
    }
  }

  /** With lower-case forms all different each keyword counts its own matches once. */
  lemma {:induction false} MultiplicityDistinct(kws: seq<Keyword>, j: nat)
    requires j < |kws|
    requires forall a, b :: 0 <= a < b < |kws| ==> ToLower(kws[a].text) != ToLower(kws[b].text)
    ensures Multiplicity(kws, ToLower(kws[j].text)) == 1
    decreases |kws|
  {
    var init := kws[..|kws| - 1];
    var key := ToLower(kws[j].text);
    if j == |kws| - 1 {
      MultiplicityAbsent(init, key);
    } else {
      assert init[j] == kws[j];
      MultiplicityDistinct(init, j);
    }
  }

  lemma {:induction false} MultiplicityAbsent(kws: seq<Keyword>, key: string)
    requires forall a :: 0 <= a < |kws| ==> ToLower(kws[a].text) != key
    ensures Multiplicity(kws, key) == 0
    decreases |kws|
  {
    if kws != [] {
      MultiplicityAbsent(kws[..|kws| - 1], key);
    }
  }

  /** Counts are sums over entries. */
  lemma {:induction false} MentionsAppend(t1: seq<TranscriptEntry>, t2: seq<TranscriptEntry>, sp: Speaker, key: string)
    ensures Mentions(t1 + t2, sp, key) == Mentions(t1, sp, key) + Mentions(t2, sp, key)
    decreases |t2|
  {
    if t2 == [] {
      assert t1 + t2 == t1;
    } else {
      var init := t2[..|t2| - 1];
      assert (t1 + t2)[..|t1 + t2| - 1] == t1 + init;
      assert (t1 + t2)[|t1 + t2| - 1] == t2[|t2| - 1];
      MentionsAppend(t1, init, sp, key);
    }
  }

  /** Analysing `t1 + t2` gives the pointwise sums of analysing each. */
  lemma AnalysisAppend(t1: seq<TranscriptEntry>, t2: seq<TranscriptEntry>, kws: seq<Keyword>, j: nat)
    requires forall i :: 0 <= i < |kws| ==> Literal(kws[i].text)
    requires j < |kws|
    ensures Analysis(t1 + t2, kws)[j].salespersonMentions ==
      Analysis(t1, kws)[j].salespersonMentions + Analysis(t2, kws)[j].salespersonMentions
    ensures Analysis(t1 + t2, kws)[j].customerMentions ==
      Analysis(t1, kws)[j].customerMentions + Analysis(t2, kws)[j].customerMentions
  {
    var key := ToLower(kws[j].text);
    var m := Multiplicity(kws, key);
    AnalysisCounts(t1 + t2, kws, j);
    AnalysisCounts(t1, kws, j);
    AnalysisCounts(t2, kws, j);
    MentionsAppend(t1, t2, B, key);
    MentionsAppend(t1, t2, A, key);
    ScaledSum(m, Mentions(t1, B, key), Mentions(t2, B, key), Mentions(t1 + t2, B, key),
      Analysis(t1, kws)[j].salespersonMentions, Analysis(t2, kws)[j].salespersonMentions,
      Analysis(t1 + t2, kws)[j].salespersonMentions);
    ScaledSum(m, Mentions(t1, A, key), Mentions(t2, A, key), Mentions(t1 + t2, A, key),
      Analysis(t1, kws)[j].customerMentions, Analysis(t2, kws)[j].customerMentions,
      Analysis(t1 + t2, kws)[j].customerMentions);
  }

  /** Scaled counts of two parts add up to the scaled count of the whole. */
  lemma ScaledSum(m: nat, x: nat, y: nat, z: nat, sx: nat, sy: nat, sz: nat)
    requires z == x + y && sx == m * x && sy == m * y && sz == m * z
    ensures sz == sx + sy
  {
    Distribute(m, x, y);
  }

  /** An empty transcript leaves every counter at zero. */
  lemma AnalysisEmptyTranscript(kws: seq<Keyword>)
    requires forall i :: 0 <= i < |kws| ==> Literal(kws[i].text)
    ensures forall j :: 0 <= j < |kws| ==>
      Analysis([], kws)[j].salespersonMentions == 0 && Analysis([], kws)[j].customerMentions == 0
  {
  }

  /** Only the lower-case forms of the keywords matter. */
  lemma {:induction false} MultiplicityIgnoresCase(kws: seq<Keyword>, kws': seq<Keyword>, key: string)
    requires |kws| == |kws'| && forall j :: 0 <= j < |kws| ==> ToLower(kws[j].text) == ToLower(kws'[j].text)
    ensures Multiplicity(kws, key) == Multiplicity(kws', key)
    decreases |kws|
  {
    if kws != [] {
      var n := |kws| - 1;
      assert forall j :: 0 <= j < n ==> kws[..n][j] == kws[j] && kws'[..n][j] == kws'[j];
      MultiplicityIgnoresCase(kws[..n], kws'[..n], key);
    }
  }

  /** Only the lower-case forms of the texts matter. */
  lemma {:induction false} MentionsIgnoreCase(t: seq<TranscriptEntry>, t': seq<TranscriptEntry>, sp: Speaker, key: string)
    requires |t| == |t'|
    requires forall k :: 0 <= k < |t| ==> t[k].speaker == t'[k].speaker && ToLower(t[k].text) == ToLower(t'[k].text)
    ensures Mentions(t, sp, key) == Mentions(t', sp, key)
    decreases |t|
  {
    if t != [] {
      var n := |t| - 1;
      assert forall k :: 0 <= k < n ==> t[..n][k] == t[k] && t'[..n][k] == t'[k];
      MentionsIgnoreCase(t[..n], t'[..n], sp, key);
    }
  }

  /** Changing the case of keywords or of entry texts changes no count. */
  lemma AnalysisIgnoresCase(t: seq<TranscriptEntry>, t': seq<TranscriptEntry>, kws: seq<Keyword>, kws': seq<Keyword>, j: nat)
    requires forall i :: 0 <= i < |kws| ==> Literal(kws[i].text)
    requires forall i :: 0 <= i < |kws'| ==> Literal(kws'[i].text)
    requires |kws| == |kws'| && forall i :: 0 <= i < |kws| ==> ToLower(kws[i].text) == ToLower(kws'[i].text)
    requires |t| == |t'|
    requires forall k :: 0 <= k < |t| ==> t[k].speaker == t'[k].speaker && ToLower(t[k].text) == ToLower(t'[k].text)
    requires j < |kws|
    ensures Analysis(t, kws)[j].salespersonMentions == Analysis(t', kws')[j].salespersonMentions
    ensures Analysis(t, kws)[j].customerMentions == Analysis(t', kws')[j].customerMentions
  {
    var key := ToLower(kws[j].text);
    AnalysisCounts(t, kws, j);
    AnalysisCounts(t', kws', j);
    MultiplicityIgnoresCase(kws, kws', key);
    MentionsIgnoreCase(t, t', B, key);
    MentionsIgnoreCase(t, t', A, key);
  }
}
