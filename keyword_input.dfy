// The custom keyword input: a text field whose trimmed content is handed to
// the `onAddKeyword` callback by the Add button or the Enter key, and the
// chips of the keywords already chosen.

module KeywordInputView {
  import opened Optional
  import opened Text
  import opened Keywords

  /** What `handleAdd` hands to `onAddKeyword` for a given input, if anything. */
  function AddedText(inputValue: string): (r: Option<string>)
    ensures r.Some? <==> !AllSpace(inputValue)
    ensures r.Some? ==> r.value == Trim(inputValue)
  {
    var t := Trim(inputValue);
    if t != [] then Some(t) else None
  }

  /** The Add button's `disabled` rule: the trimmed input is empty. */
  predicate AddDisabled(inputValue: string) {
    Trim(inputValue) == []
  }

  /** The text handed on is never blank and has no leading or trailing whitespace. */
  lemma AddedTextTrimmed(inputValue: string)
    requires AddedText(inputValue).Some?
    ensures var t := AddedText(inputValue).value;
      t != [] && !IsSpace(t[0]) && !IsSpace(t[|t| - 1]) && Trim(t) == t
  {
    TrimIdempotent(inputValue);
  }

  /** The button is disabled exactly when clicking it would hand nothing on. */
  lemma DisabledWhenNothingToAdd(inputValue: string)
    ensures AddDisabled(inputValue) <==> AddedText(inputValue).None?
  {
  }

  /** The text handed on is a piece of the input: no characters are invented. */
  lemma AddedTextFromInput(inputValue: string)
    requires AddedText(inputValue).Some?
    ensures forall k :: 0 <= k < |AddedText(inputValue).value| ==> AddedText(inputValue).value[k] in inputValue
  {
    TrimChars(inputValue);
  }

  /** A chosen keyword's chip: the text it shows and the text its remove button hands to `onRemoveKeyword`. */
  datatype Chip = Chip(shown: string, removes: string)

  /** The chip list and whether the "No keywords added" placeholder shows. */
  function Chips(keywords: seq<Keyword>): (r: (seq<Chip>, bool))
    ensures |r.0| == |keywords|
    ensures forall i :: 0 <= i < |keywords| ==> r.0[i].shown == keywords[i].text && r.0[i].removes == keywords[i].text
    ensures r.1 <==> r.0 == []
  {
    (seq(|keywords|, i requires 0 <= i < |keywords| => Chip(keywords[i].text, keywords[i].text)), |keywords| == 0)
  }

  /** The input field's state. */
  class KeywordInput {
    var inputValue: string

    constructor()
      ensures inputValue == ""
    {
      inputValue := "";
    }

    /** The field's `onChange`. */
    method Change(value: string)
      modifies this
      ensures inputValue == value
    {
      inputValue := value;
    }

    /**
     * `handleAdd`: returns the text handed to `onAddKeyword`, if any; after
     * handing it on the field is cleared, otherwise it is left as it was.
     */
    method HandleAdd() returns (added: Option<string>)
      modifies this
      ensures added == AddedText(old(inputValue))
      ensures inputValue == if added.Some? then "" else old(inputValue)
    {
      var t := Trim(inputValue);
      if t != [] {
        added := Some(t);
        inputValue := "";
      } else {
        added := None;
      }
    }

    /** `handleKeyDown`: Enter runs the add path, any other key does nothing. */
    method HandleKeyDown(key: string) returns (added: Option<string>)
      modifies this
      ensures added == if key == "Enter" then AddedText(old(inputValue)) else None
      ensures inputValue == if added.Some? then "" else old(inputValue)
    {
      if key == "Enter" {
        added := HandleAdd();
      } else {
        added := None;
      }
    }
  }
}
