// What the reachability checks (ICMP and TCP) show once they know whether the target answered.
module Reachability {
  import opened Wrappers
  import opened Output

  /** The text the reachability checks show for a reachable target unless told otherwise. */
  const DEFAULT_AVAILABILITY_TEXT: Option<string> := Some("up")
  /** By default nothing is shown for an unreachable target. */
  const DEFAULT_UNAVAILABILITY_TEXT: Option<string> := None

  /**
   * The text selection of `get`: the text configured for the observed outcome on both lines,
   * with neither icon nor colour, or nothing when no text is configured for that outcome.
   */
  function SelectText(available: bool, availabilityText: Option<string>, unavailabilityText: Option<string>)
    : (r: Option<I3Display<string>>)
    ensures var text := if available then availabilityText else unavailabilityText;
      && (r.None? <==> text.None?)
      && (r.Some? ==> r.value == I3Display(None, [Lit(text.value)], [Lit(text.value)], None))
  {
    if available then
      if availabilityText.Some? then
        var x := availabilityText.value;
        Some(I3Display(None, [Lit(x)], [Lit(x)], None))
      else None
    else
      if unavailabilityText.Some? then
        var x := unavailabilityText.value;
        Some(I3Display(None, [Lit(x)], [Lit(x)], None))
      else None
  }

  /** With the default texts a reachable target shows `up` and an unreachable one shows nothing. */
  lemma DefaultTexts(available: bool)
    ensures available ==> SelectText(available, DEFAULT_AVAILABILITY_TEXT, DEFAULT_UNAVAILABILITY_TEXT)
                          == Some(I3Display(None, [Lit("up")], [Lit("up")], None))
    ensures !available ==> SelectText(available, DEFAULT_AVAILABILITY_TEXT, DEFAULT_UNAVAILABILITY_TEXT).None?
  {
  }
}
