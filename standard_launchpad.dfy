/**
 * LaunchPad of the DotNetStandard library: the connection between an Azure
 * function and its handler. ExecuteHttpTrigger finds (or, on a route's first
 * call, discovers and caches) the route's vehicle, runs it inside SafelyTry,
 * and turns whatever it returns or throws into a response.
 *
 * The calling function is found on the call stack in the source; here it is
 * a parameter (`caller`), as is the log key, which the source takes from the
 * clock.
 */
module StandardLaunchPad {
  import opened Wrappers
  import opened Text
  import opened Exceptions
  import opened Coercion
  import opened RequestTranslation
  import opened Responses
  import opened ExceptionHints
  import opened Reflection
  import opened StandardBinder
  import opened StandardVehicle

  /** The message Error logs: the log key, "Service Error:" and the exception's message. */
  function ErrorLogMessage(logKey: string, error: Exception): string {
    logKey + " Service Error: " + error.Message
  }

  /**
   * The response Error builds: the exception classified as it was caught,
   * with no unwrapping of a TargetInvocationException, and the debug hint
   * always present.
   */
  function ErrorResponse(error: Exception, logKey: string): HttpResponseMessage {
    var codeName := if error.Kind.ServiceOperation? then ErrorCodeName(error.Kind.ErrorCode) else "";
    ClassifiedResponse(error, codeName, logKey, GetExceptionHint(error))
  }

  /** Error: log once, then fill a fresh envelope's error fields and pick the status. */
  method Error(error: Exception, logger: ServiceLogger, logKey: string) returns (r: HttpResponseMessage)
    modifies logger`Errors
    ensures r == ErrorResponse(error, logKey)
    ensures logger.Errors == old(logger.Errors) + [LogEntry(ErrorLogMessage(logKey, error), error)]
  {
    logger.Error(ErrorLogMessage(logKey, error), error);
    var statusCode := BadRequest;
    var created := NewServiceResponse(Null);
    var response := created.value;
    if error.Kind.ServiceOperation? {
      response.ErrorCode := Some(ErrorCodeName(error.Kind.ErrorCode));
      response.ErrorMessage := Some(error.Message + LogKeyLine(logKey));
    } else {
      response.ErrorCode := Some(ErrorCodeName(FatalError));
      statusCode := InternalServerError;
      response.ErrorMessage := Some(FatalMessage(logKey, GetExceptionHint(error)));
    }
    r := HttpResponseMessage(statusCode, Json(response.Snapshot()));
  }

  /** What SafelyTry answers for what `tryme` returned or threw. */
  function SafelyTrySpec(outcome: Result<Data, Exception>, logKey: string): HttpResponseMessage {
    match Attempt(outcome)
    case Success(m) => m
    case Failure(e) => ErrorResponse(e, logKey)
  }

  /** What SafelyTry logs: one entry for a failed try block, nothing otherwise. */
  function Logged(outcome: Result<Data, Exception>, logKey: string): (entries: seq<LogEntry>)
    ensures |entries| <= 1
    ensures entries == [] <==> Attempt(outcome).Success?
  {
    match Attempt(outcome)
    case Success(_) => []
    case Failure(e) => [LogEntry(ErrorLogMessage(logKey, e), e)]
  }

  /** SafelyTry: the call's result as a response; a failure goes through Error, which logs it. */
  method SafelyTry(logger: ServiceLogger, outcome: Result<Data, Exception>, logKey: string) returns (r: HttpResponseMessage)
    modifies logger`Errors
    ensures r == SafelyTrySpec(outcome, logKey)
    ensures logger.Errors == old(logger.Errors) + Logged(outcome, logKey)
  {
    var tried: Result<HttpResponseMessage, Exception>;
    if outcome.Failure? {
      tried := Failure(outcome.error);
    } else if outcome.value.Response? {
      tried := Success(outcome.value.Message);
    } else {
      tried := Ok(outcome.value);
    }
    if tried.Success? {
      r := tried.value;
    } else {
      r := Error(tried.error, logger, logKey);
    }
  }

  /**
   * A ServiceOperationException that reaches Error inside a
   * TargetInvocationException is answered as a fatal error: status 500, code
   * FatalError, and a hint that names the wrapper's message instead of the
   * service error's.
   */
  lemma WrappedServiceErrorIsFatal(e: Exception, logKey: string)
    requires e.Kind.ServiceOperation?
    ensures ErrorResponse(WrapInvocation(e), logKey).StatusCode == InternalServerError
    ensures ErrorResponse(WrapInvocation(e), logKey).Content.Body.ErrorCode == Some("FatalError")
    ensures ErrorResponse(WrapInvocation(e), logKey).Content.Body.ErrorMessage
      == Some(FatalMessage(logKey, "Debug hint: " + InvocationMessage + " (Unknown location)"))
  {
    NoStackTraceHint(WrapInvocation(e));
  }

  /**
   * A ServiceOperationException thrown while binding the arguments (a
   * missing required parameter, say) reaches the client as a 500 fatal
   * error, not the 400 BadRequest the error code asks for.
   */
  lemma BindingServiceErrorIsFatal(m: TargetMethod<StandardProperty>, read: Reader, logKey: string)
    requires Definitions(m).Success?
    requires read(m.Parameters[0].Properties).Failure? && read(m.Parameters[0].Properties).error.Kind.ServiceOperation?
    ensures SafelyTrySpec(ExecuteHttpRequestSpec(m, read), logKey).StatusCode == InternalServerError
  {
    ExecuteOutcomes(m, read);
    WrappedServiceErrorIsFatal(read(m.Parameters[0].Properties).error, logKey);
  }

  /**
   * The same holds for a ServiceOperationException thrown by the service
   * method itself, which MethodInfo.Invoke wraps as well.
   */
  lemma HandlerServiceErrorIsFatal(m: TargetMethod<StandardProperty>, read: Reader, logKey: string, e: Exception)
    requires Definitions(m).Success? && |m.Parameters| == 2
    requires read(m.Parameters[0].Properties).Success?
    requires m.Body([BoundArguments(read(m.Parameters[0].Properties).value), LoggerArgument]) == Failure(e)
    requires e.Kind.ServiceOperation?
    ensures SafelyTrySpec(ExecuteHttpRequestSpec(m, read), logKey).StatusCode == InternalServerError
  {
    ExecuteOutcomes(m, read);
    WrappedServiceErrorIsFatal(e, logKey);
  }

  /**
   * What the try block of ExecuteHttpTrigger gives: the cached vehicle's
   * run, or, for a route not seen before, discovery followed by the new
   * vehicle's run. A missing handler or method, and a method with fewer
   * than two parameters, fail with an ApplicationException.
   */
  function RouteOutcome(known: Option<TargetMethod<StandardProperty>>, caller: CallingMethod<StandardProperty>, read: Reader)
    : (r: Result<Data, Exception>)
    ensures known.None? && Discover(caller).Failure? ==> r.Failure? && r.error.Kind == SystemError("ApplicationException")
    ensures var target := if known.Some? then Success(known.value) else Discover(caller);
      target.Success? && |target.value.Parameters| < 2 ==> r.Failure? && r.error.Kind == SystemError("ApplicationException")
  {
    match known
    case Some(m) => ExecuteHttpRequestSpec(m, read)
    case None =>
      match Discover(caller)
      case Failure(e) => Failure(e)
      case Success(m) => ExecuteHttpRequestSpec(m, read)
  }

  /** The launch pad: one vehicle per request path, kept for the life of the process. */
  class LaunchPad {
    /** Uri.UnescapeDataString and the library parsers every vehicle's binder uses. */
    const unescape: string -> string
    const parse: Parsers
    var vehicles: map<string, Vehicle>

    ghost predicate Valid()
      reads this, vehicles.Values
    {
      forall path :: path in vehicles ==>
        vehicles[path].Valid() && vehicles[path].Checks() && vehicles[path].unescape == unescape && vehicles[path].parse == parse
    }

    constructor (unescape: string -> string, parse: Parsers)
      ensures Valid() && vehicles == map[]
      ensures this.unescape == unescape && this.parse == parse
    {
      this.unescape := unescape;
      this.parse := parse;
      vehicles := map[];
    }

    /**
     * The try block of ExecuteHttpTrigger: the vehicle cached under the
     * request's LocalPath, or a new one for the calling function, cached
     * only once discovery succeeds; then the vehicle's run.
     */
    method RunRoute(req: HttpRequestMessage, logger: ServiceLogger, caller: CallingMethod<StandardProperty>)
      returns (outcome: Result<Data, Exception>)
      requires Valid()
      modifies this, vehicles.Values
      ensures Valid()
      ensures var path := req.RequestUri.LocalPath;
        outcome == RouteOutcome(if path in old(vehicles) then Some(old(vehicles)[path].callMe) else None, caller, BinderFor(req, unescape, parse))
      ensures var path := req.RequestUri.LocalPath;
        path in old(vehicles) || Discover(caller).Failure? ==> vehicles == old(vehicles)
      ensures var path := req.RequestUri.LocalPath;
        path !in old(vehicles) && Discover(caller).Success? ==>
          path in vehicles && vehicles == old(vehicles)[path := vehicles[path]] && fresh(vehicles[path])
          && vehicles[path].callMe == Discover(caller).value
    {
      var path := req.RequestUri.LocalPath;
      if path in vehicles {
        outcome := RunCached(req, logger);
      } else {
        var discovered := Discover(caller);
        if discovered.Failure? {
          outcome := Failure(discovered.error);
        } else {
          outcome := RunNew(req, logger, discovered.value);
        }
      }
    }

    /** A route seen before: its vehicle runs again, and the cache keeps its entries. */
    method RunCached(req: HttpRequestMessage, logger: ServiceLogger) returns (outcome: Result<Data, Exception>)
      requires Valid() && req.RequestUri.LocalPath in vehicles
      modifies vehicles.Values
      ensures Valid() && vehicles == old(vehicles)
      ensures outcome == ExecuteHttpRequestSpec(vehicles[req.RequestUri.LocalPath].callMe, BinderFor(req, unescape, parse))
    {
      var vehicle := vehicles[req.RequestUri.LocalPath];
      outcome := vehicle.ExecuteHttpRequest(req, logger);
      forall p | p in vehicles
        ensures vehicles[p].Valid() && vehicles[p].Checks() && vehicles[p].unescape == unescape && vehicles[p].parse == parse
      {
        assert old(vehicles[p].Valid());
        if vehicles[p] != vehicle {
          assert unchanged(vehicles[p]);
        }
      }
    }

    /** A route not seen before: a new vehicle for the target method, cached, then run. */
    method RunNew(req: HttpRequestMessage, logger: ServiceLogger, target: TargetMethod<StandardProperty>)
      returns (outcome: Result<Data, Exception>)
      requires Valid() && req.RequestUri.LocalPath !in vehicles
      modifies this
      ensures Valid()
      ensures var path := req.RequestUri.LocalPath;
        path in vehicles && vehicles == old(vehicles)[path := vehicles[path]] && fresh(vehicles[path])
        && vehicles[path].callMe == target
      ensures outcome == ExecuteHttpRequestSpec(target, BinderFor(req, unescape, parse))
    {
      var path := req.RequestUri.LocalPath;
      var vehicle := new Vehicle(target, unescape, parse, Definitions(target));
      ghost var before := vehicles;
      vehicles := vehicles[path := vehicle];
      outcome := vehicle.ExecuteHttpRequest(req, logger);
      assert vehicles[path] == vehicle;
      forall p | p in vehicles
        ensures vehicles[p].Valid() && vehicles[p].Checks() && vehicles[p].unescape == unescape && vehicles[p].parse == parse
      {
        if p != path {
          assert p in before && vehicles[p] == before[p];
          assert old(before[p].Valid());
          assert before[p] != vehicle;
          assert unchanged(before[p]);
        }
      }
    }

    /** ExecuteHttpTrigger: the route's run inside SafelyTry. */
    method ExecuteHttpTrigger(req: HttpRequestMessage, logger: ServiceLogger, caller: CallingMethod<StandardProperty>, logKey: string)
      returns (r: HttpResponseMessage)
      requires Valid()
      modifies this, logger`Errors, vehicles.Values
      ensures Valid()
      ensures var path := req.RequestUri.LocalPath;
        var outcome := RouteOutcome(if path in old(vehicles) then Some(old(vehicles)[path].callMe) else None, caller, BinderFor(req, unescape, parse));
        r == SafelyTrySpec(outcome, logKey) && logger.Errors == old(logger.Errors) + Logged(outcome, logKey)
      ensures var path := req.RequestUri.LocalPath;
        path in old(vehicles) || Discover(caller).Failure? ==> vehicles == old(vehicles)
      ensures var path := req.RequestUri.LocalPath;
        path !in old(vehicles) && Discover(caller).Success? ==>
          path in vehicles && vehicles == old(vehicles)[path := vehicles[path]] && fresh(vehicles[path])
          && vehicles[path].callMe == Discover(caller).value
    {
      var outcome := RunRoute(req, logger, caller);
      r := Answer(logger, outcome, logKey);
    }

    /** SafelyTry's answer to the route's outcome: only the logger changes. */
    method Answer(logger: ServiceLogger, outcome: Result<Data, Exception>, logKey: string) returns (r: HttpResponseMessage)
      requires Valid()
      modifies logger`Errors
      ensures Valid() && vehicles == old(vehicles)
      ensures r == SafelyTrySpec(outcome, logKey) && logger.Errors == old(logger.Errors) + Logged(outcome, logKey)
    {
      r := SafelyTry(logger, outcome, logKey);
    }
  }

  /**
   * Two calls on one path: the second reuses the vehicle the first one
   * cached and gives what a fresh vehicle for the same method would give.
   */
  method CallTwice(pad: LaunchPad, first: HttpRequestMessage, second: HttpRequestMessage, logger: ServiceLogger,
                   caller: CallingMethod<StandardProperty>, logKey: string)
    returns (a: HttpResponseMessage, b: HttpResponseMessage)
    requires pad.Valid() && first.RequestUri.LocalPath !in pad.vehicles && Discover(caller).Success?
    requires second.RequestUri.LocalPath == first.RequestUri.LocalPath
    modifies pad, logger`Errors, pad.vehicles.Values
    ensures |pad.vehicles| == |old(pad.vehicles)| + 1
    ensures b == SafelyTrySpec(ExecuteHttpRequestSpec(Discover(caller).value, BinderFor(second, pad.unescape, pad.parse)), logKey)
  {
    a := pad.ExecuteHttpTrigger(first, logger, caller, logKey);
    b := pad.ExecuteHttpTrigger(second, logger, caller, logKey);
  }
}
