/**
 * What a service call answers: the HTTP response, the ServiceResponse
 * envelope every answer carries (data and errors alike), the conversion of
 * a handler's return value into the envelope's Values, the logger the
 * controller writes to, and the classification of a caught exception into
 * a BadRequest or a fatal InternalServerError envelope, which the three
 * copies of Error (ControllerHandlerBase and both LaunchPads) share.
 *
 * JSON serialisation is not modelled: a response carries the envelope
 * record itself.
 */
module Responses {
  import opened Wrappers
  import opened Text
  import opened Exceptions

  datatype HttpStatusCode = OK | BadRequest | InternalServerError | OtherStatus(Code: nat)

  /**
   * An object a handler returns, as GetObjectArrayFromObject classifies it:
   * null; anything assignable to IEnumerable<object> (an object[], a
   * List<object>, an array of a reference type) with its elements; an array
   * of a value type such as int[]; an HttpResponseMessage; any other object.
   */
  datatype Data =
    | Null
    | ObjectSequence(Elements: seq<Data>)
    | ValueTypeArray(ElementType: string, Length: nat)
    | Response(Message: HttpResponseMessage)
    | Scalar(Text: string)

  /** The ServiceResponse fields as they are serialised. */
  datatype Envelope = Envelope(Count: int, ErrorCode: Option<string>, Values: seq<Data>, ErrorMessage: Option<string>)

  /** The content of a response: none, the serialised envelope, or text a handler put there itself. */
  datatype Content = NoContent | Json(Body: Envelope) | Text(Words: string)

  datatype HttpResponseMessage = HttpResponseMessage(StatusCode: HttpStatusCode, Content: Content)

  const BoxingMessage := "Arrays of value types must be boxed as object arrays first."

  /** GetObjectArrayFromObject: the Values a returned object turns into, or the ArgumentException for an unboxed array. */
  function GetObjectArrayFromObject(data: Data): (r: Result<seq<Data>, Exception>)
    ensures r.Failure? <==> data.ValueTypeArray?
    ensures r.Failure? ==> r.error == Thrown("ArgumentException", BoxingMessage)
    ensures data.Null? ==> r == Success([])
    ensures data.ObjectSequence? ==> r == Success(data.Elements)
    ensures data.Response? || data.Scalar? ==> r == Success([data])
  {
    match data
    case Null => Success([])
    case ObjectSequence(elements) => Success(elements)
    case ValueTypeArray(_, _) => Failure(Thrown("ArgumentException", BoxingMessage))
    case _ => Success([data])
  }

  /**
   * The Values of an envelope, handed back as an object[], come out as the
   * same Values: the conversion is idempotent.
   */
  lemma ValuesAreStable(data: Data)
    requires GetObjectArrayFromObject(data).Success?
    ensures GetObjectArrayFromObject(ObjectSequence(GetObjectArrayFromObject(data).value)) == GetObjectArrayFromObject(data)
  {
  }

  /** A non-null object that is not a sequence gives exactly one value, itself. */
  lemma SingleValue(data: Data)
    requires !data.Null? && !data.ObjectSequence? && !data.ValueTypeArray?
    ensures GetObjectArrayFromObject(data) == Success([data])
    ensures |GetObjectArrayFromObject(data).value| == 1
  {
  }

  /** ServiceResponse: the envelope object, whose ErrorCode and ErrorMessage Error fills in after construction. */
  class ServiceResponse {
    var Count: int
    var ErrorCode: Option<string>
    var Values: seq<Data>
    var ErrorMessage: Option<string>

    /** The constructor once the values are known: Count is their number, no error is set. */
    constructor (values: seq<Data>)
      ensures Values == values && Count == |values|
      ensures ErrorCode.None? && ErrorMessage.None?
    {
      Values := values;
      Count := |values|;
      ErrorCode := None;
      ErrorMessage := None;
    }

    /** What serialising this object records. */
    function Snapshot(): (e: Envelope)
      reads this
      ensures e.Count == Count && e.Values == Values
      ensures e.ErrorCode == ErrorCode && e.ErrorMessage == ErrorMessage
    {
      Envelope(Count, ErrorCode, Values, ErrorMessage)
    }
  }

  /**
   * `new ServiceResponse(data)`: Values from GetObjectArrayFromObject and
   * Count their number, or the ArgumentException the conversion throws.
   */
  method NewServiceResponse(data: Data) returns (r: Result<ServiceResponse, Exception>)
    ensures r.Success? <==> !data.ValueTypeArray?
    ensures r.Failure? ==> r.error == GetObjectArrayFromObject(data).error
    ensures r.Success? ==> fresh(r.value) && Success(r.value.Values) == GetObjectArrayFromObject(data)
    ensures r.Success? ==> r.value.Count == |r.value.Values| && r.value.ErrorCode.None? && r.value.ErrorMessage.None?
  {
    var values := GetObjectArrayFromObject(data);
    if values.Failure? {
      return Failure(values.error);
    }
    var response := new ServiceResponse(values.value);
    r := Success(response);
  }

  /** The envelope `new ServiceResponse(data)` serialises to when the data converts. */
  function EnvelopeOf(values: seq<Data>): (e: Envelope)
    ensures e.Count == |e.Values| && e.Values == values
    ensures e.ErrorCode.None? && e.ErrorMessage.None?
  {
    Envelope(|values|, None, values, None)
  }

  /** The response Ok builds: status OK and the envelope of `new ServiceResponse(output)`, or what that constructor throws. */
  function OkResponse(output: Data): (r: Result<HttpResponseMessage, Exception>)
    ensures r.Failure? <==> output.ValueTypeArray?
    ensures r.Failure? ==> r.error == Thrown("ArgumentException", BoxingMessage)
    ensures r.Success? ==> r.value.StatusCode == OK && r.value.Content == Json(EnvelopeOf(GetObjectArrayFromObject(output).value))
  {
    match GetObjectArrayFromObject(output)
    case Failure(e) => Failure(e)
    case Success(values) => Success(HttpResponseMessage(OK, Json(EnvelopeOf(values))))
  }

  /** Ok: the same in ControllerHandlerBase and both LaunchPads. */
  method Ok(output: Data) returns (r: Result<HttpResponseMessage, Exception>)
    ensures r == OkResponse(output)
  {
    var created := NewServiceResponse(output);
    if created.Failure? {
      return Failure(created.error);
    }
    var response := created.value;
    r := Success(HttpResponseMessage(OK, Json(response.Snapshot())));
  }

  /**
   * The try block of SafelyTry, given what `tryme()` returned or threw: an
   * HttpResponseMessage is returned as it is, anything else goes through Ok
   * (whose own ArgumentException is caught like any other).
   */
  function Attempt(outcome: Result<Data, Exception>): (r: Result<HttpResponseMessage, Exception>)
    ensures outcome.Success? && outcome.value.Response? ==> r == Success(outcome.value.Message)
    ensures outcome.Failure? ==> r == Failure(outcome.error)
    ensures outcome.Success? && !outcome.value.Response? ==> r == OkResponse(outcome.value)
  {
    match outcome
    case Failure(e) => Failure(e)
    case Success(Response(m)) => Success(m)
    case Success(d) => OkResponse(d)
  }

  /** The try block fails exactly when `tryme` throws or returns an unboxed value-type array. */
  lemma AttemptFails(outcome: Result<Data, Exception>)
    ensures Attempt(outcome).Failure? <==> outcome.Failure? || outcome.value.ValueTypeArray?
    ensures Attempt(outcome).Success? && !outcome.value.Response? ==>
      Attempt(outcome).value.StatusCode == OK && Attempt(outcome).value.Content.Json?
      && Attempt(outcome).value.Content.Body.ErrorCode.None?
  {
  }

  /** One call of IServiceLogger.Error (ILogger.LogError in the shared library): the message and the exception. */
  datatype LogEntry = LogEntry(Message: string, Error: Exception)

  /** A logger that keeps what it was given, as the tests' MockLogger does. */
  class ServiceLogger {
    var Errors: seq<LogEntry>

    constructor ()
      ensures Errors == []
    {
      Errors := [];
    }

    method Error(message: string, exception: Exception)
      modifies this`Errors
      ensures Errors == old(Errors) + [LogEntry(message, exception)]
    {
      Errors := Errors + [LogEntry(message, exception)];
    }
  }

  /** The message SafelyTryJob logs: the log key, "Fatal Error:" and the exception's text. */
  function JobErrorMessage(logKey: string, e: Exception): string {
    logKey + " Fatal Error: " + ExceptionText(e)
  }

  /**
   * SafelyTryJob, the same in ControllerHandlerBase and both LaunchPads,
   * given what the job did (`failure` is the exception it threw, if any):
   * never throws, and logs a thrown exception exactly once.
   */
  method SafelyTryJob(logger: ServiceLogger, failure: Option<Exception>, logKey: string)
    modifies logger`Errors
    ensures failure.None? ==> logger.Errors == old(logger.Errors)
    ensures failure.Some? ==> logger.Errors == old(logger.Errors) + [LogEntry(JobErrorMessage(logKey, failure.value), failure.value)]
  {
    if failure.Some? {
      logger.Error(JobErrorMessage(logKey, failure.value), failure.value);
    }
  }

  const LogKeyHeading := "\r\nThe Log Key for this error is"

  /** The line every error envelope's message ends its first part with. */
  function LogKeyLine(logKey: string): string {
    LogKeyHeading + " " + logKey
  }

  const FatalPreamble := "There was a fatal service error."

  /** The message of a fatal error envelope: the preamble, the log key, then the hint. */
  function FatalMessage(logKey: string, hint: string): string {
    FatalPreamble + LogKeyLine(logKey) + "\r\n" + hint
  }

  /**
   * The response Error builds for an exception it classifies: a
   * ServiceOperationException gives BadRequest with the name of its code
   * (`codeName`) and its message followed by the log key; anything else
   * gives InternalServerError, the FatalError code and the fatal message
   * ending with `hint`. The envelope holds no values either way.
   */
  function ClassifiedResponse(error: Exception, codeName: string, logKey: string, hint: string): HttpResponseMessage {
    if error.Kind.ServiceOperation? then
      HttpResponseMessage(BadRequest, Json(Envelope(0, Some(codeName), [], Some(error.Message + LogKeyLine(logKey)))))
    else
      HttpResponseMessage(InternalServerError, Json(Envelope(0, Some("FatalError"), [], Some(FatalMessage(logKey, hint)))))
  }

  /**
   * What every Error response promises: BadRequest exactly for a
   * ServiceOperationException and InternalServerError otherwise; no values
   * and Count 0; the code's name and the message followed by the log key in
   * the first case; FatalError and a message that starts with the preamble
   * and the log-key line and ends with the hint in the second.
   */
  lemma ClassifiedResponseShape(error: Exception, codeName: string, logKey: string, hint: string)
    ensures var r := ClassifiedResponse(error, codeName, logKey, hint);
      && (r.StatusCode == BadRequest <==> error.Kind.ServiceOperation?)
      && (r.StatusCode == InternalServerError <==> !error.Kind.ServiceOperation?)
      && r.Content.Json? && r.Content.Body.Count == 0 && r.Content.Body.Values == []
      && r.Content.Body.ErrorMessage.Some? && r.Content.Body.ErrorCode.Some?
    ensures var e := ClassifiedResponse(error, codeName, logKey, hint).Content.Body;
      error.Kind.ServiceOperation? ==>
        e.ErrorCode == Some(codeName) && StartsWith(e.ErrorMessage.value, error.Message + LogKeyHeading)
    ensures var e := ClassifiedResponse(error, codeName, logKey, hint).Content.Body;
      !error.Kind.ServiceOperation? ==>
        e.ErrorCode == Some("FatalError")
        && StartsWith(e.ErrorMessage.value, FatalPreamble + LogKeyHeading)
        && EndsWith(e.ErrorMessage.value, hint)
  {
    var m := ClassifiedResponse(error, codeName, logKey, hint).Content.Body.ErrorMessage.value;
    if error.Kind.ServiceOperation? {
      var head := error.Message + LogKeyHeading;
      assert m == head + (" " + logKey);
      ConcatEnds(head, " " + logKey);
    } else {
      var head := FatalPreamble + LogKeyHeading;
      var tail := " " + logKey + "\r\n";
      assert m == head + (tail + hint);
      ConcatEnds(head, tail + hint);
      assert m == (head + tail) + hint;
      ConcatEnds(head + tail, hint);
    }
  }
}
