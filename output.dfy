// What a check hands to the status bar: lines built from text pieces, an optional colour,
// or an error.
module Output {
  import opened Wrappers
  import opened Numeric
  import opened Text

  /** Rust `BytesUnit`, the unit a byte quantity is shown in. */
  datatype BytesUnit = Kb | Mb | Gb

  /** How many bytes one unit holds. */
  function UnitBytes(unit: BytesUnit): (n: nat)
    ensures n >= 1024
  {
    match unit
    case Kb => 1024
    case Mb => 1024 * 1024
    case Gb => 1024 * 1024 * 1024
  }

  /** The letter the byte displays put after a figure in `unit`. */
  function UnitLetter(unit: BytesUnit): string {
    match unit
    case Kb => "K"
    case Mb => "M"
    case Gb => "G"
  }

  /**
   * One piece of an output line. Literal text and integers are rendered exactly; float
   * formatting, `format_dhms`, the `Display` of `BytesUnit` and `set_text_threshold_color`
   * are kept as the pieces they are given.
   */
  datatype Piece =
    | Lit(text: string)                              // literal text
    | Fixed(value: F64, width: nat, precision: nat)  // a float right-aligned in `width` characters with `precision` decimals
    | Dhms(seconds: nat)                             // `format_dhms(seconds)`
    | Unit(unit: BytesUnit)                          // `{}` of a `BytesUnit`
    | ThresholdText(warning: real, critical: real, value: F64, inner: seq<Piece>)
      // `set_text_threshold_color(warning, critical, value, Some(text))`

  type Line = seq<Piece>

  /** A float formatted with one decimal. */
  function OneDecimal(x: F64): Piece {
    Fixed(x, 0, 1)
  }

  /** `{}%` of a whole number: its digits, which read back as the number, then a percent sign. */
  function PercentText(n: nat): (s: string)
    ensures |s| >= 2 && s[|s| - 1] == '%'
    ensures AllDigits(s[..|s| - 1]) && ParseNat(s[..|s| - 1]) == n
  {
    ParseNatDigits(n);
    assert (Decimal(n) + "%")[..|Decimal(n)|] == Decimal(n);
    Decimal(n) + "%"
  }

  /** Rust `I3StatusRustColorState`, as far as the printer checks use it. */
  datatype RustColorState = I3StatusRustStateWarning | I3StatusRustStateGood

  /** Rust `I3Display`: icon, long line, short line and colour (whose type varies by caller). */
  datatype I3Display<C> = I3Display(icon: Option<string>, longLine: Line, shortLine: Line, color: Option<C>)

  /** Rust `I3BlocksDisplay`: long line, short line and an optional colour code. */
  datatype I3BlocksDisplay = I3BlocksDisplay(longLine: Line, shortLine: Line, color: Option<string>)

  /** How a check ends when it does not produce a display. */
  datatype Failure =
    | Reported(message: string)   // an `I3DisplayError` / `I3BlocksError` carrying this message
    | Panicked(message: string)   // the process panics (`unwrap`, `expect`, `panic!`, index out of range)
}
