// The dashboard's settings dropdown: which of the eight panels are visible,
// the switch that flips one of them, and the dropdown's open state.

module DashboardSettingsView {
  import opened Optional

  /** The keys of the dashboard layout. */
  datatype Panel =
    | Transcript | AudioPlayer | AiInsights | SentimentGraph
    | CoachingCard | NextSteps | VocalDelivery | KeywordTracker

  /** The dashboard layout: one visibility flag per panel. */
  datatype Layout = Layout(
    transcript: bool, audioPlayer: bool, aiInsights: bool, sentimentGraph: bool,
    coachingCard: bool, nextSteps: bool, vocalDelivery: bool, keywordTracker: bool)

  /** `layout[panel]`. */
  function Visible(layout: Layout, panel: Panel): bool {
    match panel
    case Transcript => layout.transcript
    case AudioPlayer => layout.audioPlayer
    case AiInsights => layout.aiInsights
    case SentimentGraph => layout.sentimentGraph
    case CoachingCard => layout.coachingCard
    case NextSteps => layout.nextSteps
    case VocalDelivery => layout.vocalDelivery
    case KeywordTracker => layout.keywordTracker
  }

  /** `{ ...layout, [panel]: value }`. */
  function With(layout: Layout, panel: Panel, value: bool): Layout {
    Layout(
      if panel == Transcript then value else layout.transcript,
      if panel == AudioPlayer then value else layout.audioPlayer,
      if panel == AiInsights then value else layout.aiInsights,
      if panel == SentimentGraph then value else layout.sentimentGraph,
      if panel == CoachingCard then value else layout.coachingCard,
      if panel == NextSteps then value else layout.nextSteps,
      if panel == VocalDelivery then value else layout.vocalDelivery,
      if panel == KeywordTracker then value else layout.keywordTracker)
  }

  /** The spread copy sets the one key and keeps all others. */
  lemma WithVisible(layout: Layout, panel: Panel, value: bool, other: Panel)
    ensures Visible(With(layout, panel, value), other) == if other == panel then value else Visible(layout, other)
  {
    match panel {
      case Transcript =>
      case AudioPlayer =>
      case AiInsights =>
      case SentimentGraph =>
      case CoachingCard =>
      case NextSteps =>
      case VocalDelivery =>
      case KeywordTracker =>
    }
  }

  /** `handleToggle(panel)`: the layout handed to `onLayoutChange`, with that panel flipped and every other kept. */
  function HandleToggle(layout: Layout, panel: Panel): (r: Layout)
    ensures Visible(r, panel) == !Visible(layout, panel)
    ensures forall other :: other != panel ==> Visible(r, other) == Visible(layout, other)
  {
    var r := With(layout, panel, !Visible(layout, panel));
    assert forall other :: Visible(r, other) == if other == panel then !Visible(layout, panel) else Visible(layout, other) by {
      forall other ensures Visible(r, other) == if other == panel then !Visible(layout, panel) else Visible(layout, other) {
        WithVisible(layout, panel, !Visible(layout, panel), other);
      }
    }
    r
  }

  /** Two layouts that agree on every panel are the same layout. */
  lemma LayoutsAgree(a: Layout, b: Layout)
    requires forall panel :: Visible(a, panel) == Visible(b, panel)
    ensures a == b
  {
    assert Visible(a, Transcript) == Visible(b, Transcript);
    assert Visible(a, AudioPlayer) == Visible(b, AudioPlayer);
    assert Visible(a, AiInsights) == Visible(b, AiInsights);
    assert Visible(a, SentimentGraph) == Visible(b, SentimentGraph);
    assert Visible(a, CoachingCard) == Visible(b, CoachingCard);
    assert Visible(a, NextSteps) == Visible(b, NextSteps);
    assert Visible(a, VocalDelivery) == Visible(b, VocalDelivery);
    assert Visible(a, KeywordTracker) == Visible(b, KeywordTracker);
  }

  /** Flipping the same switch twice restores the layout. */
  lemma ToggleTwice(layout: Layout, panel: Panel)
    ensures HandleToggle(HandleToggle(layout, panel), panel) == layout
  {
    var m := HandleToggle(layout, panel);
    var r := HandleToggle(m, panel);
    forall other ensures Visible(r, other) == Visible(layout, other) {
      if other == panel {
        assert Visible(r, panel) == !Visible(m, panel);
      } else {
        assert Visible(r, other) == Visible(m, other);
      }
    }
    LayoutsAgree(r, layout);
  }

  /** One flip, seen at one panel. */
  lemma ToggleAt(layout: Layout, panel: Panel, other: Panel)
    ensures Visible(HandleToggle(layout, panel), other) == if other == panel then !Visible(layout, other) else Visible(layout, other)
  {
  }

  /** Setting two different keys gives the same layout in either order. */
  lemma WithCommutes(layout: Layout, p: Panel, x: bool, q: Panel, y: bool)
    requires p != q
    ensures With(With(layout, p, x), q, y) == With(With(layout, q, y), p, x)
  {
  }

  /** Flipping two switches gives the same layout in either order. */
  lemma ToggleCommutes(layout: Layout, p: Panel, q: Panel)
    ensures HandleToggle(HandleToggle(layout, p), q) == HandleToggle(HandleToggle(layout, q), p)
  {
    if p != q {
      var x, y := !Visible(layout, p), !Visible(layout, q);
      WithVisible(layout, p, x, q);
      WithVisible(layout, q, y, p);
      WithCommutes(layout, p, x, q, y);
    }
  }

  /** `panelLabels`. */
  function PanelLabel(panel: Panel): string {
    match panel
    case Transcript => "Transcript"
    case AudioPlayer => "Audio Player"
    case AiInsights => "AI Insights"
    case SentimentGraph => "Sentiment Graph"
    case CoachingCard => "Coaching Card"
    case NextSteps => "Next Steps"
    case VocalDelivery => "Vocal Delivery"
    case KeywordTracker => "Keyword Tracker"
  }

  /** `Object.keys(layout)`: the panels in the order the initial layout declares them. */
  const PanelOrder: seq<Panel> :=
    [Transcript, AudioPlayer, AiInsights, SentimentGraph, CoachingCard, NextSteps, VocalDelivery, KeywordTracker]

  /** The dashboard's initial layout. */
  const InitialLayout: Layout := Layout(true, true, true, true, true, true, true, true)

  /** Every panel is listed once, and the eight labels are told apart. */
  lemma PanelsListed()
    ensures |PanelOrder| == 8
    ensures forall panel :: panel in PanelOrder
    ensures forall i, j :: 0 <= i < j < |PanelOrder| ==> PanelLabel(PanelOrder[i]) != PanelLabel(PanelOrder[j])
  {
    forall panel ensures panel in PanelOrder {
      match panel
      case Transcript => assert PanelOrder[0] == panel;
      case AudioPlayer => assert PanelOrder[1] == panel;
      case AiInsights => assert PanelOrder[2] == panel;
      case SentimentGraph => assert PanelOrder[3] == panel;
      case CoachingCard => assert PanelOrder[4] == panel;
      case NextSteps => assert PanelOrder[5] == panel;
      case VocalDelivery => assert PanelOrder[6] == panel;
      case KeywordTracker => assert PanelOrder[7] == panel;
    }
  }

  /** Every panel starts out visible. */
  lemma InitiallyAllVisible()
    ensures forall panel :: Visible(InitialLayout, panel)
  {
  }

  /** One switch in the dropdown: its label and whether it is on. */
  datatype SwitchRow = SwitchRow(caption: string, checked: bool, panel: Panel)

  /** The dropdown's switch list: nothing while closed, otherwise one switch per panel in key order. */
  function Menu(isOpen: bool, layout: Layout): (r: Option<seq<SwitchRow>>)
    ensures r.Some? <==> isOpen
    ensures r.Some? ==> |r.value| == |PanelOrder|
    ensures r.Some? ==> forall i :: 0 <= i < |r.value| ==>
      r.value[i].panel == PanelOrder[i] && r.value[i].caption == PanelLabel(PanelOrder[i]) &&
      r.value[i].checked == Visible(layout, PanelOrder[i])
  {
    if !isOpen then None
    else Some(seq(|PanelOrder|, i requires 0 <= i < |PanelOrder| =>
      SwitchRow(PanelLabel(PanelOrder[i]), Visible(layout, PanelOrder[i]), PanelOrder[i])))
  }

  /** Clicking a switch flips exactly that switch in the menu's next rendering. */
  lemma MenuToggle(layout: Layout, i: nat)
    requires i < |PanelOrder|
    ensures var before := Menu(true, layout).value;
      var after := Menu(true, HandleToggle(layout, before[i].panel)).value;
      after[i].checked == !before[i].checked &&
      forall j :: 0 <= j < |after| && j != i ==> after[j].checked == before[j].checked
  {
    var before := Menu(true, layout).value;
    var after := Menu(true, HandleToggle(layout, before[i].panel)).value;
    forall j | 0 <= j < |after| && j != i ensures after[j].checked == before[j].checked {
      assert PanelOrder[j] != PanelOrder[i] by {
        PanelsListed();
      }
    }
  }

  /** The dropdown's open state. */
  class Dropdown {
    var isOpen: bool

    constructor()
      ensures !isOpen
    {
      isOpen := false;
    }

    /** The settings button flips the dropdown. */
    method ButtonClick()
      modifies this
      ensures isOpen == !old(isOpen)
    {
      isOpen := !isOpen;
    }

    /** A mousedown anywhere on the page: one outside the dropdown closes it, one inside changes nothing. */
    method MouseDown(insideDropdown: bool)
      modifies this
      ensures isOpen == (old(isOpen) && insideDropdown)
    {
      if !insideDropdown {
        isOpen := false;
      }
    }
  }
}
