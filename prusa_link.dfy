// The PrusaLink printer check: credentials, the status request, the classification of what comes
// back, and the line shown for each printer state.
module PrusaLink {
  import opened Wrappers
  import opened Numeric
  import opened Output
  import opened Http

  /** Command-line options of the check. */
  datatype PrusaLinkArgs = PrusaLinkArgs(
    url: string,
    login: Option<string>,
    password: Option<string>,
    token: Option<string>,
    hideRemainingTime: bool)

  /** Printer states reported by PrusaLink (JSON names in upper case). */
  datatype PrusaPrintState = Printing | Paused | Finished | Stopped | Idle | Busy | Ready | Attention

  datatype PrusaLinkJob = PrusaLinkJob(progress: real, timePrinting: i64, timeRemaining: i64)

  datatype PrusaPrinter = PrusaPrinter(state: PrusaPrintState)

  /** The decoded body of `GET <url>/api/v1/status`. */
  datatype PrusaLinkJobResponse = PrusaLinkJobResponse(job: Option<PrusaLinkJob>, printer: PrusaPrinter)

  /** What the check needs from a response: state, remaining seconds, completion percentage. */
  datatype PrusaLinkStatus = PrusaLinkStatus(status: PrusaPrintState, remainingTime: i64, completion: real)

  datatype PrusaLinkError =
    | InvalidCredentials
    | InvalidConnection(detail: string)
    | ConnectionTimeout
    | ConnectionRefused
    | InvalidResponse(detail: string)
    | DeserializationError(detail: string)

  const STATUS_PATH: string := "/api/v1/status"
  const INVALID_CREDENTIALS_TEXT: string := "No token or login/password provided"

  /** `Display` of a state: the glyph shown in the status bar. */
  function StateText(state: PrusaPrintState): (r: string)
    ensures r != []
  {
    match state
    case Printing => "\U{F0E5B}"
    case Paused => "\U{F042B} \U{F28B}"
    case Finished => "\U{F042B} \U{F058}"
    case Stopped => "\U{F042B} \U{EBA5}"
    case Idle => "\U{F042B} \U{F04B2}"
    case Busy => "\U{F18B9}"
    case Ready => "\U{F042B} \U{F04B2}"
    case Attention => "\U{F11C1}"
  }

  /** `Debug` name of a state. */
  function StateDebugName(state: PrusaPrintState): string {
    match state
    case Printing => "Printing"
    case Paused => "Paused"
    case Finished => "Finished"
    case Stopped => "Stopped"
    case Idle => "Idle"
    case Busy => "Busy"
    case Ready => "Ready"
    case Attention => "Attention"
  }

  /** `Display` of an error. */
  function ErrorText(e: PrusaLinkError): string {
    match e
    case InvalidCredentials => INVALID_CREDENTIALS_TEXT
    case InvalidConnection(x) => "Invalid connection: " + x
    case ConnectionTimeout => "Connection timeout"
    case ConnectionRefused => "Connection refused"
    case InvalidResponse(x) => "Invalid response: " + x
    case DeserializationError(x) => "Deserialization error: " + x
  }

  /** Errors that mean "the printer is not there": the check then shows nothing. */
  predicate Suppressed(e: PrusaLinkError) {
    e.ConnectionRefused? || e.ConnectionTimeout?
  }

  /** The credential pre-check of `get`: a token, or both login and password. */
  predicate HasCredentials(command: PrusaLinkArgs) {
    command.token.Some? || (command.login.Some? && command.password.Some?)
  }

  /** States whose completion comes from the job in progress. */
  predicate NeedsJob(state: PrusaPrintState) {
    state == Printing || state == Paused || state == Stopped || state == Attention
  }

  /**
   * `get_job_status`: with a token the request carries it in `X-Api-Key`, otherwise it uses
   * digest authentication. Only the token path tells timeouts and refused connections apart;
   * every failure of the digest path is an `InvalidResponse`.
   */
  function GetJobStatus(
    url: string, token: Option<string>, login: Option<string>, password: Option<string>,
    clientError: Option<string>, send: Transport<PrusaLinkJobResponse>)
    : (r: Result<Response<PrusaLinkJobResponse>, PrusaLinkError>)
    requires token.Some? || (login.Some? && password.Some?)
    ensures clientError.Some? ==> r == Err(InvalidConnection(clientError.value))
    ensures clientError.None? && token.Some? ==>
      var sent := send(Request(url + STATUS_PATH, ApiKeyHeader(token.value)));
      && (sent.Ok? ==> r == Ok(sent.value))
      && (sent.Err? && sent.error.isTimeout ==> r == Err(ConnectionTimeout))
      && (sent.Err? && !sent.error.isTimeout && sent.error.isConnect ==> r == Err(ConnectionRefused))
      && (sent.Err? && !sent.error.isTimeout && !sent.error.isConnect ==>
            r == Err(InvalidResponse(sent.error.message)))
    ensures clientError.None? && token.None? ==>
      var sent := send(Request(url + STATUS_PATH, DigestAuth(login.value, password.value)));
      && (sent.Ok? ==> r == Ok(sent.value))
      && (sent.Err? ==> r == Err(InvalidResponse(sent.error.message)))
  {
    if clientError.Some? then Err(InvalidConnection(clientError.value))
    else
      match token
      case Some(x) =>
        (match send(Request(url + STATUS_PATH, ApiKeyHeader(x)))
         case Ok(res) => Ok(res)
         case Err(e) =>
           if e.isTimeout then Err(ConnectionTimeout)
           else if e.isConnect then Err(ConnectionRefused)
           else Err(InvalidResponse(e.message)))
      case None =>
        (match send(Request(url + STATUS_PATH, DigestAuth(login.value, password.value)))
         case Ok(res) => Ok(res)
         case Err(e) => Err(InvalidResponse(e.message)))
  }

  /**
   * The projection of a decoded job: the printer state, the time remaining of the job (0
   * without a job), and the completion: the job's progress in the states that need a job
   * (whose absence is an invalid response quoting the decoded value), 100 once finished, and
   * 0 otherwise.
   */
  function ProjectJob(content: PrusaLinkJobResponse): (r: Result<PrusaLinkStatus, PrusaLinkError>)
    ensures r.Ok? <==> (NeedsJob(content.printer.state) ==> content.job.Some?)
    ensures r.Ok? ==>
      && r.value.status == content.printer.state
      && r.value.remainingTime == (if content.job.Some? then content.job.value.timeRemaining else 0)
      && (NeedsJob(r.value.status) ==> r.value.completion == content.job.value.progress)
      && (r.value.status in {Idle, Busy, Ready} ==> r.value.completion == 0.0)
      && (r.value.status == Finished ==> r.value.completion == 100.0)
    ensures r.Err? ==>
      r == Err(InvalidResponse("PrusaLinkJobResponse { job: None, printer: PrusaPrinter { state: "
                               + StateDebugName(content.printer.state) + " } }"))
  {
    var state := content.printer.state;
    var remaining: i64 := match content.job { case Some(x) => x.timeRemaining case None => 0 };
    if NeedsJob(state) then
      match content.job
      case Some(x) => Ok(PrusaLinkStatus(state, remaining, x.progress))
      case None =>
        Err(InvalidResponse("PrusaLinkJobResponse { job: None, printer: PrusaPrinter { state: "
                            + StateDebugName(state) + " } }"))
    else if state == Finished then Ok(PrusaLinkStatus(state, remaining, 100.0))
    else Ok(PrusaLinkStatus(state, remaining, 0.0))
  }

  /**
   * `to_prusa_link_status`: a 200 response with a decodable body is projected; 408 and 504
   * are timeouts, 403 rejected credentials, other codes invalid.
   */
  function ToPrusaLinkStatus(res: Response<PrusaLinkJobResponse>): (r: Result<PrusaLinkStatus, PrusaLinkError>)
    ensures res.status.code == REQUEST_TIMEOUT || res.status.code == GATEWAY_TIMEOUT ==> r == Err(ConnectionTimeout)
    ensures res.status.code == FORBIDDEN ==> r == Err(InvalidCredentials)
    ensures res.status.code !in {OK, FORBIDDEN, REQUEST_TIMEOUT, GATEWAY_TIMEOUT} ==>
      r == Err(InvalidResponse("Error: " + StatusText(res.status)))
    ensures res.status.code == OK && res.body.Undecodable? ==> r == Err(DeserializationError(res.body.message))
    ensures res.status.code == OK && res.body.Decoded? ==> r == ProjectJob(res.body.value)
  {
    if res.status.code == OK then
      match res.body
      case Undecodable(m) => Err(DeserializationError(m))
      case Decoded(content) => ProjectJob(content)
    else if res.status.code == REQUEST_TIMEOUT || res.status.code == GATEWAY_TIMEOUT then Err(ConnectionTimeout)
    else if res.status.code == FORBIDDEN then Err(InvalidCredentials)
    else Err(InvalidResponse("Error: " + StatusText(res.status)))
  }

  /**
   * The line and colour of a status: while printing, the glyph, the completion and (unless
   * hidden) the remaining time; otherwise the state's glyph. Attention is a warning and a
   * finished job is good; no other state is coloured.
   */
  function StatusLine(status: PrusaLinkStatus, hideRemainingTime: bool): (r: (Line, Option<RustColorState>))
    ensures r.1 == Some(I3StatusRustStateWarning) <==> status.status == Attention
    ensures r.1 == Some(I3StatusRustStateGood) <==> status.status == Finished
    ensures r.1 == None <==> status.status !in {Attention, Finished}
    ensures status.status == Printing ==>
      && |r.0| >= 4
      && r.0[..4] == [Lit(StateText(Printing)), Lit(" "), OneDecimal(Num(status.completion)), Lit("%")]
      && (hideRemainingTime <==> |r.0| == 4)
      && (!hideRemainingTime ==> r.0[4..] == [Lit(" "), Dhms(I64AsUsize(status.remainingTime))])
    ensures status.status != Printing ==> r.0 == [Lit(StateText(status.status))]
  {
    match status.status
    case Printing =>
      var x := [Lit(StateText(Printing)), Lit(" "), OneDecimal(Num(status.completion)), Lit("%")];
      var line := if !hideRemainingTime then x + [Lit(" "), Dhms(I64AsUsize(status.remainingTime))] else x;
      (line, None)
    case Attention => ([Lit(StateText(Attention))], Some(I3StatusRustStateWarning))
    case Finished => ([Lit(StateText(Finished))], Some(I3StatusRustStateGood))
    case _ => ([Lit(StateText(status.status))], None)
  }

  /** The request the check sends: the token when there is one, otherwise digest authentication. */
  function StatusRequest(command: PrusaLinkArgs): Request
    requires HasCredentials(command)
  {
    Request(command.url + STATUS_PATH,
        if command.token.Some? then ApiKeyHeader(command.token.value)
        else DigestAuth(command.login.value, command.password.value))
  }

  /**
   * `get`: missing credentials are an error before anything is sent; a refused or timed-out
   * connection shows nothing; every other failure is an error; otherwise one line, the same
   * long and short, with no icon.
   */
  function Get(command: PrusaLinkArgs, clientError: Option<string>, send: Transport<PrusaLinkJobResponse>)
    : (r: Result<Option<I3Display<RustColorState>>, Failure>)
    ensures !HasCredentials(command) ==> r == Err(Reported(INVALID_CREDENTIALS_TEXT))
    ensures r == Ok(None) <==>
      && HasCredentials(command) && clientError.None? && command.token.Some?
      && send(StatusRequest(command)).Err?
      && (send(StatusRequest(command)).error.isTimeout || send(StatusRequest(command)).error.isConnect)
    ensures r.Ok? && r.value.Some? ==> r.value.value.icon.None? && r.value.value.longLine == r.value.value.shortLine
    ensures HasCredentials(command) ==>
      var sent := GetJobStatus(command.url, command.token, command.login, command.password, clientError, send);
      && (sent.Err? && !Suppressed(sent.error) ==> r == Err(Reported(ErrorText(sent.error))))
      && (sent.Ok? && ToPrusaLinkStatus(sent.value).Err? ==>
            r == Err(Reported("Error: " + ErrorText(ToPrusaLinkStatus(sent.value).error))))
      && (sent.Ok? && ToPrusaLinkStatus(sent.value).Ok? ==>
            var shown := StatusLine(ToPrusaLinkStatus(sent.value).value, command.hideRemainingTime);
            r == Ok(Some(I3Display(None, shown.0, shown.0, shown.1))))
  {
    if !HasCredentials(command) then Err(Reported(ErrorText(InvalidCredentials)))
    else
      match GetJobStatus(command.url, command.token, command.login, command.password, clientError, send)
      case Err(e) => if Suppressed(e) then Ok(None) else Err(Reported(ErrorText(e)))
      case Ok(res) =>
        match ToPrusaLinkStatus(res)
        case Err(e) => Err(Reported("Error: " + ErrorText(e)))
        case Ok(status) =>
          var (line, color) := StatusLine(status, command.hideRemainingTime);
          Ok(Some(I3Display(None, line, line, color)))
  }

  /** Without credentials the result does not depend on the client or the network at all. */
  lemma NoCredentialsNoRequest(
    command: PrusaLinkArgs, clientError1: Option<string>, clientError2: Option<string>,
    send1: Transport<PrusaLinkJobResponse>, send2: Transport<PrusaLinkJobResponse>)
    requires !HasCredentials(command)
    ensures Get(command, clientError1, send1) == Get(command, clientError2, send2)
  {
  }

  /** A status code meaning timeout that arrives in a response is an error, not suppressed. */
  lemma TimeoutStatusIsHardError(
    command: PrusaLinkArgs, send: Transport<PrusaLinkJobResponse>, res: Response<PrusaLinkJobResponse>)
    requires HasCredentials(command)
    requires send(StatusRequest(command)) == Ok(res)
    requires res.status.code == REQUEST_TIMEOUT || res.status.code == GATEWAY_TIMEOUT
    ensures Get(command, None, send) == Err(Reported("Error: Connection timeout"))
  {
    assert GetJobStatus(command.url, command.token, command.login, command.password, None, send) == Ok(res);
    assert ToPrusaLinkStatus(res) == Err(ConnectionTimeout);
    assert "Error: " + ErrorText(ConnectionTimeout) == "Error: Connection timeout";
  }

  /** A 403 is reported as missing credentials, after the "Error: " prefix. */
  lemma ForbiddenIsCredentialError(
    command: PrusaLinkArgs, send: Transport<PrusaLinkJobResponse>, res: Response<PrusaLinkJobResponse>)
    requires HasCredentials(command)
    requires send(StatusRequest(command)) == Ok(res)
    requires res.status.code == FORBIDDEN
    ensures Get(command, None, send) == Err(Reported("Error: " + INVALID_CREDENTIALS_TEXT))
  {
  }

  /** Without a token, no failure of the digest exchange is suppressed. */
  lemma DigestFailuresAreReported(command: PrusaLinkArgs, send: Transport<PrusaLinkJobResponse>)
    requires command.token.None? && command.login.Some? && command.password.Some?
    requires send(StatusRequest(command)).Err?
    ensures Get(command, None, send)
         == Err(Reported("Invalid response: " + send(StatusRequest(command)).error.message))
  {
  }

  /** A printing job with its progress and remaining time gives the printing line, uncoloured. */
  lemma PrintingJobLine(
    command: PrusaLinkArgs, send: Transport<PrusaLinkJobResponse>, reason: Option<string>, job: PrusaLinkJob)
    requires HasCredentials(command) && !command.hideRemainingTime
    requires send(StatusRequest(command))
          == Ok(Response(StatusCode(OK, reason), Decoded(PrusaLinkJobResponse(Some(job), PrusaPrinter(Printing)))))
    ensures
      var line := [Lit("\U{F0E5B}"), Lit(" "), Fixed(Num(job.progress), 0, 1), Lit("%"),
                   Lit(" "), Dhms(I64AsUsize(job.timeRemaining))];
      Get(command, None, send) == Ok(Some(I3Display(None, line, line, None)))
  {
    var res := send(StatusRequest(command)).value;
    assert GetJobStatus(command.url, command.token, command.login, command.password, None, send) == Ok(res);
    var status := PrusaLinkStatus(Printing, job.timeRemaining, job.progress);
    assert ToPrusaLinkStatus(res) == Ok(status);
    var line := [Lit("\U{F0E5B}"), Lit(" "), Fixed(Num(job.progress), 0, 1), Lit("%"),
                 Lit(" "), Dhms(I64AsUsize(job.timeRemaining))];
    var x := [Lit(StateText(Printing)), Lit(" "), OneDecimal(Num(status.completion)), Lit("%")];
    assert x + [Lit(" "), Dhms(I64AsUsize(status.remainingTime))] == line;
    assert StatusLine(status, false) == (line, None);
  }
}
