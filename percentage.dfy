// The Go threshold validator: warning and critical percentages checked in a fixed order, the
// first failing check deciding the message written.
module Percentage {
  import opened Numeric
  import opened Text

  const WARNING_RANGE_MESSAGE: string := "Warning threshold should be set between 1 and 99"
  const CRITICAL_RANGE_MESSAGE: string := "Critical threshold should be set between 2 and 100"

  /** The outcome of a check: accepted, or rejected with the line written to standard output. */
  datatype Verdict = Accepted | Rejected(message: string)

  /** The line written when the warning threshold exceeds the critical one. */
  function OrderMessage(warning: int8, critical: int8): string {
    "Warning threshold (" + Decimal(warning) + ") can't be greater than critical threshold (" + Decimal(critical) + ")"
  }

  /** Whether two thresholds are acceptable: warning in 1..99, critical in 2..100, warning at most critical. */
  predicate RegularThresholds(warning: int8, critical: int8) {
    1 <= warning <= 99 && 2 <= critical <= 100 && warning <= critical
  }

  /**
   * `CheckRegularPercentage`, whose boolean result is `Accepted?`: the warning range is checked
   * first, then the critical range, then their order.
   */
  function CheckRegularPercentage(warning: int8, critical: int8): (v: Verdict)
    ensures v.Accepted? <==> RegularThresholds(warning, critical)
    ensures !(1 <= warning <= 99) ==> v == Rejected(WARNING_RANGE_MESSAGE)
    ensures 1 <= warning <= 99 && !(2 <= critical <= 100) ==> v == Rejected(CRITICAL_RANGE_MESSAGE)
    ensures 1 <= warning <= 99 && 2 <= critical <= 100 && critical < warning ==>
      v == Rejected(OrderMessage(warning, critical))
  {
    if warning > 99 || warning < 1 then Rejected(WARNING_RANGE_MESSAGE)
    else if critical < 2 || critical > 100 then Rejected(CRITICAL_RANGE_MESSAGE)
    else if critical < warning then Rejected(OrderMessage(warning, critical))
    else Accepted
  }

  /** An example at the boundary of the order check, which is strict: equal thresholds within both ranges are accepted. */
  lemma EqualThresholdsAccepted(t: int8)
    requires 2 <= t <= 99
    ensures CheckRegularPercentage(t, t) == Accepted
  {
  }

  /** The order message names both thresholds, each reading back from its digits. */
  lemma OrderMessageNamesThresholds(warning: int8, critical: int8)
    requires 1 <= warning && 2 <= critical
    ensures var m := OrderMessage(warning, critical);
      var w := Decimal(warning);
      var c := Decimal(critical);
      && m[19..19 + |w|] == w && AllDigits(w) && ParseNat(w) == warning
      && m[|m| - 1 - |c|..|m| - 1] == c && AllDigits(c) && ParseNat(c) == critical
  {
    ParseNatDigits(warning);
    ParseNatDigits(critical);
    var w := Decimal(warning);
    var c := Decimal(critical);
    var head := "Warning threshold (";
    var middle := ") can't be greater than critical threshold (";
    var m := head + w + middle + c + ")";
    assert |head| == 19;
    assert m[19..19 + |w|] == w;
    assert m[|m| - 1 - |c|..|m| - 1] == c;
  }
}
