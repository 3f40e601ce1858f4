// The OctoPrint printer check: the job request with its API key, the classification of what
// comes back, and the line shown for each job state.
module Octoprint {
  import opened Wrappers
  import opened Numeric
  import opened Output
  import opened Http

  /** Command-line options of the check. */
  datatype OctoprintArgs = OctoprintArgs(apikey: string, url: string, hideRemainingTime: bool)

  /** Job states reported by OctoPrint (JSON names as written). */
  datatype OctoprintJobState =
    Operational | Printing | Pausing | Paused | Cancelling | Error | Offline | Unssupported

  datatype ApiProgress = ApiProgress(completion: Option<real>, printTimeLeft: Option<i64>)

  /** The decoded body of `GET <url>/api/job`. */
  datatype OctoprintApiJobResponse = OctoprintApiJobResponse(progress: ApiProgress, state: OctoprintJobState)

  datatype OctoprintStatus = OctoprintStatus(status: OctoprintJobState, remainingTime: i64, completion: real)

  datatype OctoprintStatusError =
    | ConnectionRefused
    | ConnectionTimeout
    | InvalidApiKey(detail: string)
    | InvalidResponse(detail: string)
    | InvalidConnection(detail: string)
    | DeserializationError(detail: string)

  const JOB_PATH: string := "/api/job"
  /** `Display` of the error `HeaderValue::from_str` returns. */
  const INVALID_HEADER_TEXT: string := "failed to parse header value"
  const FORBIDDEN_TEXT: string := "Connection forbidden: invalid api key?"

  /** `Display` of a job state. */
  function StateText(state: OctoprintJobState): (r: string)
    ensures r != []
  {
    match state
    case Operational => "\U{F04B2}"
    case Printing => "Printing"
    case Pausing => "\U{F28B}"
    case Paused => "\U{F28B}"
    case Cancelling => "\U{F28D}"
    case Error => "\U{EA87}"
    case Offline => "Offline"
    case _ => "Unssupported"
  }

  /** The catch-all arm of `Display` is reached by the `Unssupported` state alone. */
  lemma OnlyUnssupportedRendersUnssupported(state: OctoprintJobState)
    ensures StateText(state) == "Unssupported" <==> state == Unssupported
  {
  }

  /** `Display` of an error. */
  function ErrorText(e: OctoprintStatusError): string {
    match e
    case ConnectionRefused => "Connection refused"
    case InvalidApiKey(x) => "Invalid api key: " + x
    case InvalidResponse(x) => "Invalid response: " + x
    case InvalidConnection(x) => "Invalid connection: " + x
    case DeserializationError(x) => "Deserialization error: " + x
    case ConnectionTimeout => "Connection timeout"
  }

  /** The request the check sends: the job endpoint with the API key header. */
  function JobRequest(command: OctoprintArgs): Request {
    Request(command.url + JOB_PATH, ApiKeyHeader(command.apikey))
  }

  /**
   * `get_job_status`: an API key that is not a valid header value fails before anything is
   * sent; a send that fails is a timeout, else a refused connection, else an invalid response.
   */
  function GetJobStatus(url: string, apikey: string, clientError: Option<string>,
                        send: Transport<OctoprintApiJobResponse>)
    : (r: Result<Response<OctoprintApiJobResponse>, OctoprintStatusError>)
    ensures !IsValidHeaderValue(apikey) ==> r == Err(InvalidApiKey(INVALID_HEADER_TEXT))
    ensures IsValidHeaderValue(apikey) && clientError.Some? ==> r == Err(InvalidConnection(clientError.value))
    ensures IsValidHeaderValue(apikey) && clientError.None? ==>
      var sent := send(Request(url + JOB_PATH, ApiKeyHeader(apikey)));
      && (sent.Ok? ==> r == Ok(sent.value))
      && (sent.Err? && sent.error.isTimeout ==> r == Err(ConnectionTimeout))
      && (sent.Err? && !sent.error.isTimeout && sent.error.isConnect ==> r == Err(ConnectionRefused))
      && (sent.Err? && !sent.error.isTimeout && !sent.error.isConnect ==>
            r == Err(InvalidResponse(sent.error.message)))
  {
    if !IsValidHeaderValue(apikey) then Err(InvalidApiKey(INVALID_HEADER_TEXT))
    else if clientError.Some? then Err(InvalidConnection(clientError.value))
    else
      match send(Request(url + JOB_PATH, ApiKeyHeader(apikey)))
      case Ok(res) => Ok(res)
      case Err(e) =>
        if e.isTimeout then Err(ConnectionTimeout)
        else if e.isConnect then Err(ConnectionRefused)
        else Err(InvalidResponse(e.message))
  }

  /**
   * `to_octoprint_status`: a 200 response with a decodable body becomes a status, a missing
   * completion reading as 0 and a missing time left as 0; 408 and 504 are timeouts, 403 a
   * rejected key, other codes invalid.
   */
  function ToOctoprintStatus(res: Response<OctoprintApiJobResponse>)
    : (r: Result<OctoprintStatus, OctoprintStatusError>)
    ensures res.status.code == REQUEST_TIMEOUT || res.status.code == GATEWAY_TIMEOUT ==> r == Err(ConnectionTimeout)
    ensures res.status.code == FORBIDDEN ==> r == Err(InvalidApiKey(FORBIDDEN_TEXT))
    ensures res.status.code !in {OK, FORBIDDEN, REQUEST_TIMEOUT, GATEWAY_TIMEOUT} ==>
      r == Err(InvalidResponse("Error: " + StatusText(res.status)))
    ensures res.status.code == OK && res.body.Undecodable? ==> r == Err(DeserializationError(res.body.message))
    ensures r.Ok? <==> res.status.code == OK && res.body.Decoded?
    ensures r.Ok? ==>
      var content := res.body.value;
      && r.value.status == content.state
      && r.value.completion == content.progress.completion.GetOr(0.0)
      && r.value.remainingTime == content.progress.printTimeLeft.GetOr(0)
  {
    if res.status.code == OK then
      match res.body
      case Undecodable(m) => Err(DeserializationError(m))
      case Decoded(content) =>
        Ok(OctoprintStatus(content.state,
                           content.progress.printTimeLeft.GetOr(0),
                           content.progress.completion.GetOr(0.0)))
    else if res.status.code == REQUEST_TIMEOUT || res.status.code == GATEWAY_TIMEOUT then Err(ConnectionTimeout)
    else if res.status.code == FORBIDDEN then Err(InvalidApiKey(FORBIDDEN_TEXT))
    else Err(InvalidResponse("Error: " + StatusText(res.status)))
  }

  /**
   * The line of a status: while printing, the completion (no glyph) and, unless hidden, the
   * remaining time; in every other state, the state's text.
   */
  function StatusLine(status: OctoprintStatus, hideRemainingTime: bool): (line: Line)
    ensures status.status == Printing ==>
      && |line| >= 2
      && line[..2] == [OneDecimal(Num(status.completion)), Lit("%")]
      && (hideRemainingTime <==> |line| == 2)
      && (!hideRemainingTime ==> line[2..] == [Lit(" "), Dhms(I64AsUsize(status.remainingTime))])
    ensures status.status != Printing ==> line == [Lit(StateText(status.status))]
  {
    match status.status
    case Printing =>
      var x := [OneDecimal(Num(status.completion)), Lit("%")];
      if !hideRemainingTime then x + [Lit(" "), Dhms(I64AsUsize(status.remainingTime))] else x
    case _ => [Lit(StateText(status.status))]
  }

  /**
   * `get`: a refused or timed-out connection shows nothing, every other failure is an error;
   * otherwise one line, the same long and short, with neither icon nor colour.
   */
  function Get(command: OctoprintArgs, clientError: Option<string>, send: Transport<OctoprintApiJobResponse>)
    : (r: Result<Option<I3Display<RustColorState>>, Failure>)
    ensures !IsValidHeaderValue(command.apikey) ==> r == Err(Reported("Invalid api key: " + INVALID_HEADER_TEXT))
    ensures r == Ok(None) <==>
      && IsValidHeaderValue(command.apikey) && clientError.None?
      && send(JobRequest(command)).Err?
      && (send(JobRequest(command)).error.isTimeout || send(JobRequest(command)).error.isConnect)
    ensures r.Ok? && r.value.Some? ==>
      r.value.value.icon.None? && r.value.value.color.None? && r.value.value.longLine == r.value.value.shortLine
    ensures var sent := GetJobStatus(command.url, command.apikey, clientError, send);
      && (sent.Err? && !(sent.error.ConnectionRefused? || sent.error.ConnectionTimeout?) ==>
            r == Err(Reported(ErrorText(sent.error))))
      && (sent.Ok? && ToOctoprintStatus(sent.value).Err? ==>
            r == Err(Reported("Error: " + ErrorText(ToOctoprintStatus(sent.value).error))))
      && (sent.Ok? && ToOctoprintStatus(sent.value).Ok? ==>
            var shown := StatusLine(ToOctoprintStatus(sent.value).value, command.hideRemainingTime);
            r == Ok(Some(I3Display(None, shown, shown, None))))
  {
    match GetJobStatus(command.url, command.apikey, clientError, send)
    case Err(e) =>
      if e.ConnectionRefused? || e.ConnectionTimeout? then Ok(None) else Err(Reported(ErrorText(e)))
    case Ok(res) =>
      match ToOctoprintStatus(res)
      case Err(e) => Err(Reported("Error: " + ErrorText(e)))
      case Ok(status) =>
        var line := StatusLine(status, command.hideRemainingTime);
        Ok(Some(I3Display(None, line, line, None)))
  }

  /** A key that is not a valid header value is rejected whatever the client and the network do. */
  lemma InvalidKeyNoRequest(
    command: OctoprintArgs, clientError1: Option<string>, clientError2: Option<string>,
    send1: Transport<OctoprintApiJobResponse>, send2: Transport<OctoprintApiJobResponse>)
    requires !IsValidHeaderValue(command.apikey)
    ensures Get(command, clientError1, send1) == Get(command, clientError2, send2)
  {
  }

  /** A 403 response reports the key as rejected. */
  lemma ForbiddenReportsApiKey(
    command: OctoprintArgs, send: Transport<OctoprintApiJobResponse>, res: Response<OctoprintApiJobResponse>)
    requires IsValidHeaderValue(command.apikey)
    requires send(JobRequest(command)) == Ok(res) && res.status.code == FORBIDDEN
    ensures Get(command, None, send)
         == Err(Reported("Error: " + ("Invalid api key: " + FORBIDDEN_TEXT)))
  {
    assert GetJobStatus(command.url, command.apikey, None, send) == Ok(res);
    assert ToOctoprintStatus(res) == Err(InvalidApiKey(FORBIDDEN_TEXT));
    assert ErrorText(InvalidApiKey(FORBIDDEN_TEXT)) == "Invalid api key: " + FORBIDDEN_TEXT;
  }

  /** A timeout status in a response is an error, not suppressed. */
  lemma TimeoutStatusIsHardError(
    command: OctoprintArgs, send: Transport<OctoprintApiJobResponse>, res: Response<OctoprintApiJobResponse>)
    requires IsValidHeaderValue(command.apikey)
    requires send(JobRequest(command)) == Ok(res)
    requires res.status.code == REQUEST_TIMEOUT || res.status.code == GATEWAY_TIMEOUT
    ensures Get(command, None, send) == Err(Reported("Error: Connection timeout"))
  {
    assert GetJobStatus(command.url, command.apikey, None, send) == Ok(res);
    assert ToOctoprintStatus(res) == Err(ConnectionTimeout);
    assert "Error: " + ErrorText(ConnectionTimeout) == "Error: Connection timeout";
  }
}
