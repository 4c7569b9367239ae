// The keyword tracker panel: one block per keyword, with a bar per speaker
// whose width is the count relative to the largest count on display.

module KeywordTrackerView {
  import opened Optional
  import opened Keywords

  /** `Math.max(salespersonMentions, customerMentions)` for one entry. */
  function Larger(d: KeywordAnalysis): nat {
    if d.salespersonMentions >= d.customerMentions then d.salespersonMentions else d.customerMentions
  }

  /** `Math.max(...data.map(Larger), 1)`: the scale every bar is drawn against. */
  function MaxMentions(data: seq<KeywordAnalysis>): (m: nat)
    ensures m >= 1
    ensures forall i :: 0 <= i < |data| ==> data[i].salespersonMentions <= m && data[i].customerMentions <= m
    ensures m == 1 || exists i :: 0 <= i < |data| && (data[i].salespersonMentions == m || data[i].customerMentions == m)
    decreases |data|
  {
    if data == [] then 1
    else
      var init := data[..|data| - 1];
      var rest := MaxMentions(init);
      var l := Larger(data[|data| - 1]);
      assert forall i :: 0 <= i < |init| ==> init[i] == data[i];
      if l > rest then l else rest
  }

  /** The `Bar` width: `max > 0 ? count / max * 100 : 0`, in percent. */
  function Percentage(count: nat, max: nat): real {
    if max > 0 then (count as real / max as real) * 100.0 else 0.0
  }

  /** A bar never leaves its track while the count is within the scale. */
  lemma PercentageBounds(count: nat, max: nat)
    requires count <= max
    ensures 0.0 <= Percentage(count, max) <= 100.0
  {
    if max > 0 {
      var q := count as real / max as real;
      assert q * (max as real) == count as real;
      assert q <= 1.0 by {
        if q > 1.0 {
          assert q * (max as real) > 1.0 * (max as real);
        }
      }
    }
  }

  /** The count equal to the scale fills the whole track. */
  lemma PercentageFull(max: nat)
    requires max > 0
    ensures Percentage(max, max) == 100.0
  {
  }

  /** A zero count draws an empty bar, whatever the scale. */
  lemma PercentageZero(max: nat)
    ensures Percentage(0, max) == 0.0
  {
  }

  /** One speaker's row: its caption, the count shown beside the bar, and the bar width. */
  datatype BarRow = BarRow(caption: string, count: nat, percent: real)

  /** One keyword's block: the title, then the speaker-B row, then the speaker-A row. */
  datatype Block = Block(title: string, first: BarRow, second: BarRow)

  /**
   * The rendered panel: nothing when the data is missing or empty, otherwise
   * one block per entry in data order.
   */
  function Render(data: Option<seq<KeywordAnalysis>>, speakerALabel: string, speakerBLabel: string): (r: Option<seq<Block>>)
    ensures r.None? <==> data.None? || data.value == []
    ensures r.Some? ==> |r.value| == |data.value|
    ensures r.Some? ==> forall i :: 0 <= i < |r.value| ==>
      r.value[i].title == data.value[i].keyword &&
      r.value[i].first.caption == speakerBLabel && r.value[i].first.count == data.value[i].salespersonMentions &&
      r.value[i].second.caption == speakerALabel && r.value[i].second.count == data.value[i].customerMentions
  {
    if data.None? || data.value == [] then None
    else
      var d := data.value;
      var m := MaxMentions(d);
      Some(seq(|d|, i requires 0 <= i < |d| =>
        Block(d[i].keyword,
              BarRow(speakerBLabel, d[i].salespersonMentions, Percentage(d[i].salespersonMentions, m)),
              BarRow(speakerALabel, d[i].customerMentions, Percentage(d[i].customerMentions, m)))))
  }

  /** Every bar drawn lies within 0% to 100% of its track. */
  lemma RenderBounded(data: Option<seq<KeywordAnalysis>>, speakerALabel: string, speakerBLabel: string, i: nat)
    requires data.Some? && i < |data.value|
    ensures var r := Render(data, speakerALabel, speakerBLabel);
      0.0 <= r.value[i].first.percent <= 100.0 && 0.0 <= r.value[i].second.percent <= 100.0
  {
    var d := data.value;
    var m := MaxMentions(d);
    PercentageBounds(d[i].salespersonMentions, m);
    PercentageBounds(d[i].customerMentions, m);
  }

  /**
   * Every bar whose count is the largest on display fills its whole track,
   * and every bar whose count is zero is empty, on either speaker's row.
   */
  lemma RenderScale(data: Option<seq<KeywordAnalysis>>, speakerALabel: string, speakerBLabel: string)
    requires data.Some? && data.value != []
    ensures var r := Render(data, speakerALabel, speakerBLabel); var d := data.value;
      forall i :: 0 <= i < |r.value| ==>
        (d[i].salespersonMentions == MaxMentions(d) ==> r.value[i].first.percent == 100.0) &&
        (d[i].customerMentions == MaxMentions(d) ==> r.value[i].second.percent == 100.0) &&
        (d[i].salespersonMentions == 0 ==> r.value[i].first.percent == 0.0) &&
        (d[i].customerMentions == 0 ==> r.value[i].second.percent == 0.0)
  {
    PercentageFull(MaxMentions(data.value));
    PercentageZero(MaxMentions(data.value));
  }

  /** When some count is non-zero, the largest count is on display, so some bar fills its whole track. */
  lemma RenderPeak(data: Option<seq<KeywordAnalysis>>, speakerALabel: string, speakerBLabel: string, j: nat)
    requires data.Some? && j < |data.value|
    requires data.value[j].salespersonMentions > 0 || data.value[j].customerMentions > 0
    ensures var r := Render(data, speakerALabel, speakerBLabel);
      exists i :: 0 <= i < |r.value| && (r.value[i].first.percent == 100.0 || r.value[i].second.percent == 100.0)
  {
    var d := data.value;
    var m := MaxMentions(d);
    var r := Render(data, speakerALabel, speakerBLabel);
    RenderScale(data, speakerALabel, speakerBLabel);
    var i := j;
    if m != 1 {
      i :| 0 <= i < |d| && (d[i].salespersonMentions == m || d[i].customerMentions == m);
    }
    assert d[i].salespersonMentions == m || d[i].customerMentions == m;
    assert r.value[i].first.percent == 100.0 || r.value[i].second.percent == 100.0;
  }

  /** When every count is zero the scale is 1, so no division by zero occurs and every bar is empty. */
  lemma RenderAllZero(data: Option<seq<KeywordAnalysis>>, speakerALabel: string, speakerBLabel: string)
    requires data.Some? && data.value != []
    requires forall i :: 0 <= i < |data.value| ==> data.value[i].salespersonMentions == 0 && data.value[i].customerMentions == 0
    ensures MaxMentions(data.value) == 1
    ensures var r := Render(data, speakerALabel, speakerBLabel);
      forall i :: 0 <= i < |r.value| ==> r.value[i].first.percent == 0.0 && r.value[i].second.percent == 0.0
  {
  }
}
