// The Rust threshold colour classifiers: a reading against a warning and a critical bound.
module Threshold {
  import opened Wrappers
  import opened Numeric

  const RED: string := "#FF0000"
  const YELLOW: string := "#FFFC00"

  /** The order of the colours: no colour, then yellow, then red. */
  function Severity(color: Option<string>): nat {
    if color == Some(RED) then 2 else if color == Some(YELLOW) then 1 else 0
  }

  /**
   * `define_threshold_color`: red from `critical` up, yellow from `warning` up, otherwise none.
   * The critical bound is compared first, so it wins when `warning > critical`.
   */
  function DefineThresholdColor(warning: u8, critical: u8, value: F64): (r: Option<string>)
    ensures r == Some(RED) <==> AtLeast(value, critical as real)
    ensures r == Some(YELLOW) <==> AtLeast(value, warning as real) && !AtLeast(value, critical as real)
    ensures r == None <==> !AtLeast(value, warning as real) && !AtLeast(value, critical as real)
  {
    if AtLeast(value, critical as real) then Some(RED)
    else if AtLeast(value, warning as real) then Some(YELLOW)
    else None
  }

  /** With ordered bounds, a larger reading, infinities included, never gets a less severe colour. */
  lemma ThresholdColorMonotone(warning: u8, critical: u8, v1: F64, v2: F64)
    requires warning <= critical
    requires LessOrEqual(v1, v2)
    ensures Severity(DefineThresholdColor(warning, critical, v1))
         <= Severity(DefineThresholdColor(warning, critical, v2))
  {
  }

  /**
   * `_define_reverse_threshold_color`: the mirror image, for readings where less is worse:
   * red up to `critical`, yellow up to `warning`, otherwise none.
   */
  function DefineReverseThresholdColor(warning: u8, critical: u8, value: F64): (r: Option<string>)
    ensures r == Some(RED) <==> AtMost(value, critical as real)
    ensures r == Some(YELLOW) <==> AtMost(value, warning as real) && !AtMost(value, critical as real)
    ensures r == None <==> !AtMost(value, warning as real) && !AtMost(value, critical as real)
  {
    if AtMost(value, critical as real) then Some(RED)
    else if AtMost(value, warning as real) then Some(YELLOW)
    else None
  }

  /**
   * With `critical <= warning`, a larger reading, infinities included, never gets a more
   * severe reverse colour.
   */
  lemma ReverseThresholdColorAntitone(warning: u8, critical: u8, v1: F64, v2: F64)
    requires critical <= warning
    requires LessOrEqual(v1, v2)
    ensures Severity(DefineReverseThresholdColor(warning, critical, v1))
         >= Severity(DefineReverseThresholdColor(warning, critical, v2))
  {
  }

  /** NaN compares false with every bound, so it is never coloured. */
  lemma NaNIsNeverColored(warning: u8, critical: u8)
    ensures DefineThresholdColor(warning, critical, NaN) == None
    ensures DefineReverseThresholdColor(warning, critical, NaN) == None
  {
  }

  /**
   * The four-argument `define_threshold_color(warning, middle, critical, value)` that the memory
   * and disk usage checks call. That version of the function is not part of this model, so
   * the call is kept as it is made.
   */
  datatype FourBoundColor = FourBoundColor(warning: u8, middle: u8, critical: u8, value: F64)

  /** The middle bound those checks pass: `(critical + warning) / 2` on `u8`. */
  function MiddleBound(warning: u8, critical: u8): u8 {
    WrappingAddU8(critical, warning) / 2
  }

  /**
   * Within the command-line ranges (critical 2 to 99, warning 1 to 99) the sum cannot wrap,
   * and with ordered bounds the middle bound lies between them.
   */
  lemma MiddleBoundBetween(warning: u8, critical: u8)
    requires 2 <= critical <= 99 && 1 <= warning <= 99
    ensures MiddleBound(warning, critical) == (warning + critical) / 2
    ensures warning <= critical ==> warning <= MiddleBound(warning, critical) <= critical
  {
  }
}
