// The ICMP reachability check: one ping with a timeout, a busy socket counting as unreachable.
module IcmpCheck {
  import opened Wrappers
  import opened Numeric
  import opened Text
  import opened Output
  import opened Reachability

  /** The message of the ping error that means "no answer" rather than a failure. */
  const UNAVAILABLE_MESSAGE: string := "Resource temporarily unavailable"

  datatype IcmpCheckArgs = IcmpCheckArgs(
    ip: string,
    availabilityText: Option<string>,
    unavailabilityText: Option<string>,
    timeoutMs: u64)

  /** The options with their defaults, for a given address. */
  function DefaultArgs(ip: string): (args: IcmpCheckArgs)
    ensures args.availabilityText == DEFAULT_AVAILABILITY_TEXT
    ensures args.unavailabilityText == DEFAULT_UNAVAILABILITY_TEXT
    ensures args.timeoutMs == 100
  {
    IcmpCheckArgs(ip, DEFAULT_AVAILABILITY_TEXT, DEFAULT_UNAVAILABILITY_TEXT, 100)
  }

  /** The outcome of a check: whether the host answered. */
  class IcmpCheck {
    var available: bool

    constructor ()
      ensures !available
    {
      available := false;
    }
  }

  /**
   * `check`, with the outcome of the ping as input (`Ok` when the host answered, else the
   * error's message): an answer marks the host available, an error naming a busy resource
   * leaves it unavailable, and any other error is reported with its message.
   */
  method Check(ping: Result<(), string>) returns (r: Result<IcmpCheck, Failure>)
    ensures r.Ok? ==> fresh(r.value) && r.value.available == ping.Ok?
    ensures r.Err? <==> ping.Err? && !Contains(ping.error, UNAVAILABLE_MESSAGE)
    ensures r.Err? ==> r.error == Reported(ping.error)
  {
    var icmpCheck := new IcmpCheck();
    match ping {
      case Ok(_) =>
        icmpCheck.available := true;
      case Err(e) =>
        if !Contains(e, UNAVAILABLE_MESSAGE) {
          return Err(Reported(e));
        }
    }
    return Ok(icmpCheck);
  }

  /** `get`: the text for the observed reachability, or nothing; other ping errors are reported. */
  method Get(command: IcmpCheckArgs, ping: Result<(), string>) returns (r: Result<Option<I3Display<string>>, Failure>)
    ensures ping.Err? && !Contains(ping.error, UNAVAILABLE_MESSAGE) ==> r == Err(Reported(ping.error))
    ensures ping.Ok? ==> r == Ok(SelectText(true, command.availabilityText, command.unavailabilityText))
    ensures ping.Err? && Contains(ping.error, UNAVAILABLE_MESSAGE) ==>
      r == Ok(SelectText(false, command.availabilityText, command.unavailabilityText))
  {
    var icmpCheck := Check(ping);
    if icmpCheck.Err? {
      return Err(icmpCheck.error);
    }
    return Ok(SelectText(icmpCheck.value.available, command.availabilityText, command.unavailabilityText));
  }

  /** A message that contains the busy-resource text, wherever it appears, is classified as unreachable. */
  lemma BusyMessageIsUnreachable(prefix: string, suffix: string)
    ensures Contains(prefix + UNAVAILABLE_MESSAGE + suffix, UNAVAILABLE_MESSAGE)
  {
    var m := prefix + UNAVAILABLE_MESSAGE + suffix;
    assert OccursAt(m, UNAVAILABLE_MESSAGE, |prefix|) by {
      assert m[|prefix|..|prefix| + |UNAVAILABLE_MESSAGE|] == UNAVAILABLE_MESSAGE;
    }
  }
}
