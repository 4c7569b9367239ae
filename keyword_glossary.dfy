// The keyword glossary: an accordion of the tracked keywords in which at
// most one item is expanded at a time.

module KeywordGlossaryView {
  import opened Optional

  /** The glossary's item titles, in display order. */
  const GlossaryKeywords: seq<string> := ["Pricing", "Discount", "Contract", "Feature", "Competitor", "Timeline", "Budget"]

  /** `handleToggle(index)`: clicking the open item closes it, clicking any other opens it alone. */
  function Toggle(openIndex: Option<nat>, index: nat): (r: Option<nat>)
    ensures ItemOpen(r, index) <==> !ItemOpen(openIndex, index)
    ensures forall other :: other != index ==> !ItemOpen(r, other)
  {
    if openIndex == Some(index) then None else Some(index)
  }

  /** `isOpen={openIndex === index}` for item `index`. */
  predicate ItemOpen(openIndex: Option<nat>, index: nat) {
    openIndex == Some(index)
  }

  /** The open item state after a run of clicks from the initial, all-closed state. */
  function Clicks(clicks: seq<nat>): Option<nat>
    decreases |clicks|
  {
    if clicks == [] then None else Toggle(Clicks(clicks[..|clicks| - 1]), clicks[|clicks| - 1])
  }

  /** The glossary items shown expanded after a run of clicks. */
  function OpenItems(clicks: seq<nat>): set<nat> {
    set i | 0 <= i < |GlossaryKeywords| && ItemOpen(Clicks(clicks), i)
  }

  /** After any clicks at most one glossary item is expanded, and it is the one clicked last. */
  lemma AtMostOneOpen(clicks: seq<nat>)
    ensures |OpenItems(clicks)| <= 1
    ensures OpenItems(clicks) != {} ==> clicks != [] && OpenItems(clicks) == {clicks[|clicks| - 1]}
  {
    OpenIsLastClicked(clicks);
    var o := Clicks(clicks);
    if o.Some? && o.value < |GlossaryKeywords| {
      assert OpenItems(clicks) == {o.value};
    } else {
      assert OpenItems(clicks) == {};
    }
  }

  /** Nothing is open before the first click. */
  lemma InitiallyClosed(index: nat)
    ensures !ItemOpen(Clicks([]), index)
  {
  }

  /** After any clicks, the open item, if any, is the one clicked last. */
  lemma OpenIsLastClicked(clicks: seq<nat>)
    ensures Clicks(clicks).Some? ==> clicks != [] && Clicks(clicks).value == clicks[|clicks| - 1]
  {
  }

  /** The item clicked last is open exactly when it was not open just before. */
  lemma LastClickedFlips(clicks: seq<nat>, index: nat)
    ensures ItemOpen(Clicks(clicks + [index]), index) <==> !ItemOpen(Clicks(clicks), index)
  {
    assert (clicks + [index])[..|clicks|] == clicks;
  }

  /** Clicks only ever open items that were clicked, so they stay within the glossary. */
  lemma OpenWithinGlossary(clicks: seq<nat>)
    requires forall k :: 0 <= k < |clicks| ==> clicks[k] < |GlossaryKeywords|
    ensures Clicks(clicks).Some? ==> Clicks(clicks).value < |GlossaryKeywords|
  {
    OpenIsLastClicked(clicks);
  }

  /** The accordion's open-item state. */
  class Glossary {
    var openIndex: Option<nat>

    constructor()
      ensures openIndex == None
    {
      openIndex := None;
    }

    /** A click on item `index`. */
    method HandleToggle(index: nat)
      modifies this
      ensures openIndex == Toggle(old(openIndex), index)
      ensures openIndex.Some? ==> openIndex.value == index
    {
      if openIndex == Some(index) {
        openIndex := None;
      } else {
        openIndex := Some(index);
      }
    }
  }
}
