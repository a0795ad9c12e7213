/**
 * ControllerHandlerBase of the DotNetFramework library: SafelyTry runs a
 * service call and turns its result into a response, Error classifies an
 * exception and logs it. The log key (a timestamp in the source) is a
 * parameter.
 *
 * The DotNetFramework ServiceOperationError gives AuthorizationError and
 * BadParameter the same value, 2, so Enum.ToString cannot tell them apart;
 * which of the two names it gives for 2 is up to the runtime, and is a
 * parameter here (`nameOf`).
 */
module Controller {
  import opened Wrappers
  import opened Text
  import opened Exceptions
  import opened Responses
  import opened ExceptionHints

  /** The underlying value of each member of the DotNetFramework ServiceOperationError. */
  function FrameworkValue(code: ServiceOperationError): int {
    match code
    case NoError => 0
    case FatalError => 1
    case AuthorizationError => 2
    case BadParameter => 2
    case DataError => 3
  }

  /** An Enum.ToString for the DotNetFramework enum: a value's name is the name of some member with that value. */
  predicate EnumNaming(nameOf: int -> string) {
    nameOf(0) == "NoError" && nameOf(1) == "FatalError" && nameOf(3) == "DataError"
    && (nameOf(2) == "AuthorizationError" || nameOf(2) == "BadParameter")
  }

  /** `serviceError.ErrorCode.ToString()` in the DotNetFramework library. */
  function FrameworkCodeName(code: ServiceOperationError, nameOf: int -> string): string {
    nameOf(FrameworkValue(code))
  }

  /**
   * BadParameter and AuthorizationError carry the same name in every error
   * envelope, and at least one of them carries the other's name.
   */
  lemma AliasedCodeNames(nameOf: int -> string)
    requires EnumNaming(nameOf)
    ensures FrameworkCodeName(BadParameter, nameOf) == FrameworkCodeName(AuthorizationError, nameOf)
    ensures FrameworkCodeName(BadParameter, nameOf) != "BadParameter" || FrameworkCodeName(AuthorizationError, nameOf) != "AuthorizationError"
  {
  }

  /** Every other code is named by its own member. */
  lemma UnaliasedCodeNames(code: ServiceOperationError, nameOf: int -> string)
    requires EnumNaming(nameOf) && code != BadParameter && code != AuthorizationError
    ensures FrameworkCodeName(code, nameOf) == ErrorCodeName(code)
  {
  }

  /** The message Error logs: the log key, "Service Error:" and the exception's message. */
  function ServiceErrorLogMessage(logKey: string, error: Exception): string {
    logKey + " Service Error: " + error.Message
  }

  /** The response Error builds: the classification, with the framework code names and the hint always present. */
  function ErrorResponse(error: Exception, logKey: string, nameOf: int -> string): HttpResponseMessage {
    var codeName := if error.Kind.ServiceOperation? then FrameworkCodeName(error.Kind.ErrorCode, nameOf) else "";
    ClassifiedResponse(error, codeName, logKey, GetExceptionHint(error))
  }

  /** Error: log once, then fill a fresh envelope's error fields and pick the status. */
  method Error(error: Exception, logger: ServiceLogger, logKey: string, nameOf: int -> string) returns (r: HttpResponseMessage)
    modifies logger`Errors
    ensures r == ErrorResponse(error, logKey, nameOf)
    ensures logger.Errors == old(logger.Errors) + [LogEntry(ServiceErrorLogMessage(logKey, error), error)]
  {
    logger.Error(ServiceErrorLogMessage(logKey, error), error);
    var statusCode := BadRequest;
    var created := NewServiceResponse(Null);
    var response := created.value;
    if error.Kind.ServiceOperation? {
      response.ErrorCode := Some(FrameworkCodeName(error.Kind.ErrorCode, nameOf));
      response.ErrorMessage := Some(error.Message + LogKeyLine(logKey));
    } else {
      response.ErrorCode := Some(ErrorCodeName(FatalError));
      statusCode := InternalServerError;
      response.ErrorMessage := Some(FatalMessage(logKey, GetExceptionHint(error)));
    }
    r := HttpResponseMessage(statusCode, Json(response.Snapshot()));
  }

  /** What SafelyTry answers for what `tryme` returned or threw. */
  function SafelyTrySpec(outcome: Result<Data, Exception>, logKey: string, nameOf: int -> string): HttpResponseMessage {
    match Attempt(outcome)
    case Success(m) => m
    case Failure(e) => ErrorResponse(e, logKey, nameOf)
  }

  /** SafelyTry: the call's result as a response; a failure goes through Error, which logs it. */
  method SafelyTry(logger: ServiceLogger, outcome: Result<Data, Exception>, logKey: string, nameOf: int -> string) returns (r: HttpResponseMessage)
    modifies logger`Errors
    ensures r == SafelyTrySpec(outcome, logKey, nameOf)
    ensures Attempt(outcome).Success? ==> logger.Errors == old(logger.Errors)
    ensures Attempt(outcome).Failure? ==>
      logger.Errors == old(logger.Errors) + [LogEntry(ServiceErrorLogMessage(logKey, Attempt(outcome).error), Attempt(outcome).error)]
  {
    var tried: Result<HttpResponseMessage, Exception>;
    if outcome.Failure? {
      tried := Failure(outcome.error);
    } else if outcome.value.Response? {
      tried := Success(outcome.value.Message);
    } else {
      tried := Ok(outcome.value);
    }
    if tried.Success? {
      r := tried.value;
    } else {
      r := Error(tried.error, logger, logKey, nameOf);
    }
  }

  /**
   * SafelyTry's answers: a returned HttpResponseMessage unchanged; any other
   * value an OK envelope holding it; a thrown ServiceOperationException
   * BadRequest; any other thrown exception InternalServerError with the
   * fatal message.
   */
  lemma SafelyTryOutcomes(outcome: Result<Data, Exception>, logKey: string, nameOf: int -> string)
    ensures outcome.Success? && outcome.value.Response? ==> SafelyTrySpec(outcome, logKey, nameOf) == outcome.value.Message
    ensures outcome.Success? && (outcome.value.Scalar? || outcome.value.Null? || outcome.value.ObjectSequence?) ==>
      SafelyTrySpec(outcome, logKey, nameOf).StatusCode == OK
      && SafelyTrySpec(outcome, logKey, nameOf).Content.Body.Values == GetObjectArrayFromObject(outcome.value).value
    ensures outcome.Failure? ==>
      (SafelyTrySpec(outcome, logKey, nameOf).StatusCode == BadRequest <==> outcome.error.Kind.ServiceOperation?)
    ensures outcome.Failure? && !outcome.error.Kind.ServiceOperation? ==>
      SafelyTrySpec(outcome, logKey, nameOf).StatusCode == InternalServerError
      && StartsWith(SafelyTrySpec(outcome, logKey, nameOf).Content.Body.ErrorMessage.value, FatalPreamble)
  {
    if outcome.Failure? {
      var e := outcome.error;
      var codeName := if e.Kind.ServiceOperation? then FrameworkCodeName(e.Kind.ErrorCode, nameOf) else "";
      ClassifiedResponseShape(e, codeName, logKey, GetExceptionHint(e));
      if !e.Kind.ServiceOperation? {
        var m := SafelyTrySpec(outcome, logKey, nameOf).Content.Body.ErrorMessage.value;
        assert StartsWith(m, FatalPreamble + LogKeyHeading);
        assert m[..|FatalPreamble|] == (m[..|FatalPreamble + LogKeyHeading|])[..|FatalPreamble|];
      }
    }
  }

  /**
   * A value-type array returned by the call makes Ok throw inside the try
   * block: the answer is a fatal error about boxing, not an OK envelope.
   */
  lemma UnboxedArrayIsFatal(elementType: string, length: nat, logKey: string, nameOf: int -> string)
    ensures SafelyTrySpec(Success(ValueTypeArray(elementType, length)), logKey, nameOf).StatusCode == InternalServerError
    ensures SafelyTrySpec(Success(ValueTypeArray(elementType, length)), logKey, nameOf)
      == ErrorResponse(Thrown("ArgumentException", BoxingMessage), logKey, nameOf)
  {
  }

  /**
   * A fatal error whose stack trace runs through a frame
   * `...\file:line N` has a message that starts with the preamble and the
   * log-key line and ends with "Debug hint: <message> (file:line N)".
   */
  lemma FatalErrorNamesFrame(e: Exception, logKey: string, nameOf: int -> string,
                             a: string, b: string, file: string, digits: string, r1: string, r2: string)
    requires !e.Kind.ServiceOperation?
    requires '\\' !in a && '\\' !in b && ':' !in b && '\\' !in file && ':' !in file
    requires digits != [] && AllDigits(digits)
    requires '\\' !in r1 && ':' !in r1 && (r1 == [] || !IsDigit(r1[0]))
    requires e.StackTrace == Some(a + "\\" + b + "\\" + file + ":line " + digits + r1 + "\\" + r2)
    ensures ErrorResponse(e, logKey, nameOf).StatusCode == InternalServerError
    ensures ErrorResponse(e, logKey, nameOf).Content.Body.ErrorCode == Some("FatalError")
    ensures StartsWith(ErrorResponse(e, logKey, nameOf).Content.Body.ErrorMessage.value, FatalPreamble + LogKeyHeading)
    ensures EndsWith(ErrorResponse(e, logKey, nameOf).Content.Body.ErrorMessage.value,
                     "Debug hint: " + e.Message + " (" + file + ":line " + digits + ")")
  {
    FrameHint(e, a, b, file, digits, r1, r2);
    ClassifiedResponseShape(e, "", logKey, GetExceptionHint(e));
  }
}
