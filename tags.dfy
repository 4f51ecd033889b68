/** The message tags: what the tag buttons may set and what the filter buttons may choose. */
module Tags {
  import opened Rows

  /** The values `activeTag` can hold: its initial "none" and the three tags the buttons set. */
  const TagNames: set<string> := {"none", "decision", "idea", "problem"}

  /** The tags a tag button or a filter button carries. */
  const ButtonTags: set<string> := {"decision", "idea", "problem"}

  /** The four filter buttons: "All" (null) and one per tag. */
  predicate IsFilterChoice(filter: Option<string>) {
    filter.None? || filter.value in ButtonTags
  }

  /**
   * Pressing the button of tag `pressed` while `active` is selected: the
   * result is "none" exactly when the pressed tag was already selected, and
   * the pressed tag otherwise; it is always one of the four tag names.
   */
  function ToggleTag(active: string, pressed: string): (r: string)
    requires pressed in ButtonTags
    ensures r in TagNames
    ensures r == "none" <==> active == pressed
    ensures r != "none" ==> r == pressed
  {
    if active == pressed then "none" else pressed
  }

  /**
   * Pressing the same tag button twice restores the previous selection
   * exactly when that selection was "none" or that very tag; from any other
   * tag the two presses end at "none".
   */
  lemma ToggleTwice(active: string, pressed: string)
    requires pressed in ButtonTags
    ensures ToggleTag(ToggleTag(active, pressed), pressed) == active <==> active == "none" || active == pressed
    ensures active != "none" && active != pressed ==> ToggleTag(ToggleTag(active, pressed), pressed) == "none"
  {
  }
}
