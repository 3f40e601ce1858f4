// The TCP reachability check: one connection attempt to a host and port.
module TcpCheck {
  import opened Wrappers
  import opened Numeric
  import opened Text
  import opened Output
  import opened Reachability

  datatype TcpCheckArgs = TcpCheckArgs(
    host: string,
    port: u16,
    availabilityText: Option<string>,
    unavailabilityText: Option<string>)

  /** The options with their defaults, for a given host and port. */
  function DefaultArgs(host: string, port: u16): (args: TcpCheckArgs)
    ensures args.availabilityText == DEFAULT_AVAILABILITY_TEXT
    ensures args.unavailabilityText == DEFAULT_UNAVAILABILITY_TEXT
  {
    TcpCheckArgs(host, port, DEFAULT_AVAILABILITY_TEXT, DEFAULT_UNAVAILABILITY_TEXT)
  }

  /** The outcome of a check: whether the connection was accepted. */
  class TcpCheck {
    var available: bool

    constructor ()
      ensures !available
    {
      available := false;
    }
  }

  /** `{}:{}` of host and port: the host, a colon, then the port's digits. */
  function Target(host: string, port: u16): (addr: string)
    ensures |addr| > |host| + 1 && addr[..|host|] == host && addr[|host|] == ':'
    ensures AllDigits(addr[|host| + 1..]) && ParseNat(addr[|host| + 1..]) == port
  {
    ParseNatDigits(port);
    var addr := host + ":" + Decimal(port);
    assert addr[|host| + 1..] == Decimal(port);
    addr
  }

  /**
   * `check`, with the connection attempt as input (`connect(addr)` holds when a connection to
   * `addr` is established): never an error, available exactly when the attempt succeeds.
   */
  method Check(host: string, port: u16, connect: string -> bool) returns (t: TcpCheck)
    ensures fresh(t) && t.available == connect(Target(host, port))
  {
    t := new TcpCheck();
    var addr := Target(host, port);
    if connect(addr) {
      t.available := true;
    }
  }

  /** `get`: the text for the observed reachability, or nothing; never an error. */
  method Get(command: TcpCheckArgs, connect: string -> bool) returns (r: Result<Option<I3Display<string>>, Failure>)
    ensures r == Ok(SelectText(connect(Target(command.host, command.port)),
                               command.availabilityText, command.unavailabilityText))
  {
    var tcpCheck := Check(command.host, command.port, connect);
    return Ok(SelectText(tcpCheck.available, command.availabilityText, command.unavailabilityText));
  }

  /** An example of the target format: different ports of the same host are different targets. */
  lemma TargetsDistinguishPorts(host: string, p1: u16, p2: u16)
    requires p1 != p2
    ensures Target(host, p1) != Target(host, p2)
  {
  }
}
