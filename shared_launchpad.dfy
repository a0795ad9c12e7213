/**
 * LaunchPad of the shared library (AFRocketScienceShared): the same
 * connection between an Azure function and its handler as in the
 * DotNetStandard library, with three differences that matter here. Vehicles
 * are cached under the request's Key (method and full URI) rather than its
 * path; the run receives the trigger's extra arguments; and Error unwraps a
 * TargetInvocationException before classifying it, logs the exception's
 * text rather than its message, and adds the debug hint only in a DEBUG
 * build (`debug` here).
 *
 * The calling function, found on the call stack in the source, and the log
 * key, taken from the clock, are parameters.
 */
module SharedLaunchPad {
  import opened Wrappers
  import opened Text
  import opened Exceptions
  import opened Descriptors
  import opened Coercion
  import opened RequestTranslation
  import opened Responses
  import opened ExceptionHints
  import opened Reflection
  import opened SharedBinder
  import opened SharedVehicle
  import opened QueryString

  /** The exception Error classifies: the inner exception of a TargetInvocationException, any other as it is. */
  function Unwrap(error: Exception): Exception {
    match error.Kind
    case TargetInvocation(inner) => inner
    case _ => error
  }

  /** The message Error logs: the log key, "Service Error:" and the exception's text. */
  function ErrorLogMessage(logKey: string, error: Exception): string {
    logKey + " Service Error: " + ExceptionText(error)
  }

  /** GetExceptionHint of this library: the debug hint in a DEBUG build, nothing otherwise. */
  function Hint(error: Exception, debug: bool): string {
    if debug then GetExceptionHint(error) else ""
  }

  /** The response Error builds: the unwrapped exception classified, with the hint of the build. */
  function ErrorResponse(error: Exception, logKey: string, debug: bool): HttpResponseMessage {
    var e := Unwrap(error);
    var codeName := if e.Kind.ServiceOperation? then ErrorCodeName(e.Kind.ErrorCode) else "";
    ClassifiedResponse(e, codeName, logKey, Hint(e, debug))
  }

  /** Error: unwrap, log once, then fill a fresh envelope's error fields and pick the status. */
  method Error(error: Exception, logger: ServiceLogger, logKey: string, debug: bool) returns (r: HttpResponseMessage)
    modifies logger`Errors
    ensures r == ErrorResponse(error, logKey, debug)
    ensures logger.Errors == old(logger.Errors) + [LogEntry(ErrorLogMessage(logKey, Unwrap(error)), Unwrap(error))]
  {
    var e := error;
    if e.Kind.TargetInvocation? {
      e := e.Kind.InnerException;
    }
    logger.Error(ErrorLogMessage(logKey, e), e);
    var statusCode := BadRequest;
    var created := NewServiceResponse(Null);
    var response := created.value;
    if e.Kind.ServiceOperation? {
      response.ErrorCode := Some(ErrorCodeName(e.Kind.ErrorCode));
      response.ErrorMessage := Some(e.Message + LogKeyLine(logKey));
    } else {
      response.ErrorCode := Some(ErrorCodeName(FatalError));
      statusCode := InternalServerError;
      response.ErrorMessage := Some(FatalMessage(logKey, Hint(e, debug)));
    }
    r := HttpResponseMessage(statusCode, Json(response.Snapshot()));
  }

  /**
   * A ServiceOperationException answers the same whether it reaches Error
   * bare or inside a TargetInvocationException: BadRequest, its own code's
   * name, and its own message followed by the log key.
   */
  lemma WrappedServiceErrorIsBadRequest(e: Exception, logKey: string, debug: bool)
    requires e.Kind.ServiceOperation?
    ensures ErrorResponse(WrapInvocation(e), logKey, debug) == ErrorResponse(e, logKey, debug)
    ensures ErrorResponse(e, logKey, debug).StatusCode == BadRequest
    ensures ErrorResponse(e, logKey, debug).Content.Body.ErrorCode == Some(ErrorCodeName(e.Kind.ErrorCode))
    ensures ErrorResponse(e, logKey, debug).Content.Body.ErrorMessage == Some(e.Message + LogKeyLine(logKey))
  {
  }

  /**
   * Outside a DEBUG build a fatal error's message ends with the log-key line
   * and an empty hint: nothing of the exception reaches the client.
   */
  lemma ReleaseBuildHidesHint(error: Exception, logKey: string)
    requires !Unwrap(error).Kind.ServiceOperation?
    ensures ErrorResponse(error, logKey, false).StatusCode == InternalServerError
    ensures ErrorResponse(error, logKey, false).Content.Body.ErrorMessage == Some(FatalPreamble + LogKeyLine(logKey) + "\r\n")
  {
    assert FatalMessage(logKey, "") == FatalPreamble + LogKeyLine(logKey) + "\r\n" + "";
    assert FatalPreamble + LogKeyLine(logKey) + "\r\n" + "" == FatalPreamble + LogKeyLine(logKey) + "\r\n";
  }

  /** What SafelyTry answers for what `tryme` returned or threw. */
  function SafelyTrySpec(outcome: Result<Data, Exception>, logKey: string, debug: bool): HttpResponseMessage {
    match Attempt(outcome)
    case Success(m) => m
    case Failure(e) => ErrorResponse(e, logKey, debug)
  }

  /** What SafelyTry logs: one entry, for the unwrapped exception, when the try block failed. */
  function Logged(outcome: Result<Data, Exception>, logKey: string): (entries: seq<LogEntry>)
    ensures |entries| <= 1
    ensures entries == [] <==> Attempt(outcome).Success?
  {
    match Attempt(outcome)
    case Success(_) => []
    case Failure(e) => [LogEntry(ErrorLogMessage(logKey, Unwrap(e)), Unwrap(e))]
  }

  /** SafelyTry: the call's result as a response; a failure goes through Error, which logs it. */
  method SafelyTry(logger: ServiceLogger, outcome: Result<Data, Exception>, logKey: string, debug: bool) returns (r: HttpResponseMessage)
    modifies logger`Errors
    ensures r == SafelyTrySpec(outcome, logKey, debug)
    ensures logger.Errors == old(logger.Errors) + Logged(outcome, logKey)
  {
    var tried: Result<HttpResponseMessage, Exception>;
    if outcome.Failure? {
      tried := Failure(outcome.error);
    } else if outcome.value.Response? {
      tried := Success(outcome.value.Message);
    } else {
      tried := Ok(outcome.value);
    }
    if tried.Success? {
      r := tried.value;
    } else {
      r := Error(tried.error, logger, logKey, debug);
    }
  }

  /**
   * A ServiceOperationException thrown while binding the arguments reaches
   * the client as BadRequest with its own code and message, however it was
   * wrapped on the way.
   */
  lemma BindingServiceErrorIsBadRequest(m: TargetMethod<Property>, n: nat, read: Reader, extras: Option<seq<Data>>,
                                        logKey: string, debug: bool)
    requires Definitions(m, n).Success?
    requires read(m.Parameters[0].Properties).Failure? && read(m.Parameters[0].Properties).error.Kind.ServiceOperation?
    ensures var e := read(m.Parameters[0].Properties).error;
      var response := SafelyTrySpec(Execute(m, Definitions(m, n).value, read, extras), logKey, debug);
      response.StatusCode == BadRequest && response.Content.Json?
      && response.Content.Body.ErrorCode == Some(ErrorCodeName(e.Kind.ErrorCode))
      && response.Content.Body.ErrorMessage == Some(e.Message + LogKeyLine(logKey))
  {
    ExecuteOutcomes(m, n, read, extras);
    WrappedServiceErrorIsBadRequest(read(m.Parameters[0].Properties).error, logKey, debug);
  }

  /**
   * The same for a ServiceOperationException thrown by the service method
   * itself, whatever extras the trigger passed on: Invoke wraps it, Error
   * unwraps it, and the client gets its code and its message.
   */
  lemma HandlerServiceErrorIsBadRequest(m: TargetMethod<Property>, n: nat, read: Reader, extras: Option<seq<Data>>,
                                        logKey: string, debug: bool, e: Exception)
    requires Definitions(m, n).Success?
    requires n == 0 || (extras.Some? && n <= |extras.value|)
    requires read(m.Parameters[0].Properties).Success?
    requires m.Body([BoundArguments(read(m.Parameters[0].Properties).value), LoggerArgument]
                    + (if n == 0 then [] else ExtraArguments(extras.value, 0, n))) == Failure(e)
    requires e.Kind.ServiceOperation?
    ensures var response := SafelyTrySpec(Execute(m, Definitions(m, n).value, read, extras), logKey, debug);
      response.StatusCode == BadRequest && response.Content.Json?
      && response.Content.Body.ErrorCode == Some(ErrorCodeName(e.Kind.ErrorCode))
      && response.Content.Body.ErrorMessage == Some(e.Message + LogKeyLine(logKey))
  {
    ExecuteOutcomes(m, n, read, extras);
    WrappedServiceErrorIsBadRequest(e, logKey, debug);
  }

  /** Where one key has the separator, the other has a method character that is not '>'. */
  lemma SeparatorMisplaced(a: RSHttpRequestMessage, b: RSHttpRequestMessage)
    requires '>' !in b.request.Method && |a.request.Method| < |b.request.Method|
    ensures a.Key() != b.Key()
  {
    var n := |a.request.Method|;
    assert b.Key()[n] == b.Key()[..|b.request.Method|][n] == b.request.Method[n];
  }

  /**
   * Two wrapped requests share a vehicle exactly when they have the same
   * method and the same full URI (for methods without '>'): the same path
   * with another query string gets a vehicle of its own.
   */
  lemma KeysSeparateUris(a: RSHttpRequestMessage, b: RSHttpRequestMessage)
    requires '>' !in a.request.Method && '>' !in b.request.Method
    ensures a.Key() == b.Key()
      <==> a.request.Method == b.request.Method && a.request.RequestUri.Text == b.request.RequestUri.Text
  {
    if a.Key() == b.Key() {
      if |a.request.Method| < |b.request.Method| {
        SeparatorMisplaced(a, b);
      } else if |b.request.Method| < |a.request.Method| {
        SeparatorMisplaced(b, a);
      }
    }
  }

  /** `req.Key` of the RSHttpRequestMessage that ExecuteHttpTrigger wraps the request in. */
  method RequestKey(req: HttpRequestMessage, unescape: string -> string) returns (key: string)
    ensures key == req.Method + ">" + req.RequestUri.Text
  {
    var message := new RSHttpRequestMessage(req, unescape, QueryPairs(req.RequestUri.Query, unescape), HeaderPairs(req.Headers));
    key := message.Key();
  }

  /**
   * What the try block of ExecuteHttpTrigger gives: the cached vehicle's
   * run (its method and the definitions it holds), or, for a key not seen
   * before, discovery followed by a new vehicle's first run. A new key
   * whose handler or method is missing, or whose method has the wrong
   * parameter count, fails with an ApplicationException.
   */
  function RouteOutcome(known: Option<(TargetMethod<Property>, Option<seq<ParameterDefinition>>)>,
                        caller: CallingMethod<Property>, read: Reader, extras: Option<seq<Data>>)
    : (r: Result<Data, Exception>)
    ensures known.None? && Discover(caller).Failure? ==> r.Failure? && r.error.Kind == SystemError("ApplicationException")
    ensures known.None? && Discover(caller).Success? && |Discover(caller).value.Parameters| != 2 + |extras.GetOr([])| ==>
      r.Failure? && r.error.Kind == SystemError("ApplicationException")
  {
    match known
    case Some((m, cached)) => RunOutcome(m, cached, read, extras)
    case None =>
      match Discover(caller)
      case Failure(e) => Failure(e)
      case Success(m) => RunOutcome(m, None, read, extras)
  }

  /** The launch pad: one vehicle per request key, kept for the life of the process. */
  class LaunchPad {
    /** Uri.UnescapeDataString, the library parsers and the nested-group message every vehicle's binder uses. */
    const unescape: string -> string
    const parse: Parsers
    const groupMessage: string
    var vehicles: map<string, Vehicle>

    ghost predicate Valid()
      reads this, vehicles.Values
    {
      forall key :: key in vehicles ==>
        vehicles[key].Valid() && vehicles[key].unescape == unescape && vehicles[key].parse == parse
        && vehicles[key].groupMessage == groupMessage
    }

    constructor (unescape: string -> string, parse: Parsers, groupMessage: string)
      ensures Valid() && vehicles == map[]
      ensures this.unescape == unescape && this.parse == parse && this.groupMessage == groupMessage
    {
      this.unescape := unescape;
      this.parse := parse;
      this.groupMessage := groupMessage;
      vehicles := map[];
    }

    /** A key seen before: its vehicle runs again, and the cache keeps its entries. */
    method RunCached(key: string, req: HttpRequestMessage, logger: ServiceLogger, extras: Option<seq<Data>>)
      returns (outcome: Result<Data, Exception>)
      requires Valid() && key in vehicles
      modifies vehicles.Values
      ensures Valid() && vehicles == old(vehicles)
      ensures outcome == RunOutcome(vehicles[key].callMe, old(vehicles[key].parameterDefinitions),
                                    BinderFor(req, unescape, parse, groupMessage), extras)
    {
      var vehicle := vehicles[key];
      outcome := vehicle.ExecuteHttpRequest(req, logger, extras);
      forall k | k in vehicles
        ensures vehicles[k].Valid() && vehicles[k].unescape == unescape && vehicles[k].parse == parse
          && vehicles[k].groupMessage == groupMessage
      {
        assert old(vehicles[k].Valid());
        if vehicles[k] != vehicle {
          assert unchanged(vehicles[k]);
        }
      }
    }

    /** A key not seen before: a new vehicle for the target method, cached, then run. */
    method RunNew(key: string, req: HttpRequestMessage, logger: ServiceLogger, extras: Option<seq<Data>>,
                  target: TargetMethod<Property>)
      returns (outcome: Result<Data, Exception>)
      requires Valid() && key !in vehicles
      modifies this
      ensures Valid()
      ensures key in vehicles && vehicles == old(vehicles)[key := vehicles[key]] && fresh(vehicles[key])
        && vehicles[key].callMe == target
      ensures outcome == RunOutcome(target, None, BinderFor(req, unescape, parse, groupMessage), extras)
    {
      var vehicle := new Vehicle(target, unescape, parse, groupMessage);
      ghost var before := vehicles;
      vehicles := vehicles[key := vehicle];
      outcome := vehicle.ExecuteHttpRequest(req, logger, extras);
      assert vehicles[key] == vehicle;
      forall k | k in vehicles
        ensures vehicles[k].Valid() && vehicles[k].unescape == unescape && vehicles[k].parse == parse
          && vehicles[k].groupMessage == groupMessage
      {
        if k != key {
          assert k in before && vehicles[k] == before[k];
          assert old(before[k].Valid());
          assert before[k] != vehicle;
          assert unchanged(before[k]);
        }
      }
    }

    /**
     * ExecuteHttpTrigger: the request wrapped as an RSHttpRequestMessage,
     * its Key looked up, the vehicle found or discovered and cached (only
     * once discovery succeeds), and the run inside SafelyTry.
     */
    method ExecuteHttpTrigger(req: HttpRequestMessage, logger: ServiceLogger, caller: CallingMethod<Property>,
                              extras: Option<seq<Data>>, logKey: string, debug: bool)
      returns (r: HttpResponseMessage)
      requires Valid()
      modifies this, logger`Errors, vehicles.Values
      ensures Valid()
      ensures var key := req.Method + ">" + req.RequestUri.Text;
        var known := if key in old(vehicles) then Some((old(vehicles)[key].callMe, old(vehicles[key].parameterDefinitions))) else None;
        var outcome := RouteOutcome(known, caller, BinderFor(req, unescape, parse, groupMessage), extras);
        r == SafelyTrySpec(outcome, logKey, debug) && logger.Errors == old(logger.Errors) + Logged(outcome, logKey)
      ensures var key := req.Method + ">" + req.RequestUri.Text;
        key in old(vehicles) || Discover(caller).Failure? ==> vehicles == old(vehicles)
      ensures var key := req.Method + ">" + req.RequestUri.Text;
        key !in old(vehicles) && Discover(caller).Success? ==>
          key in vehicles && vehicles == old(vehicles)[key := vehicles[key]] && fresh(vehicles[key])
          && vehicles[key].callMe == Discover(caller).value
    {
      var key := RequestKey(req, unescape);
      var outcome := RunRoute(key, req, logger, caller, extras);
      r := Answer(logger, outcome, logKey, debug);
    }

    /** SafelyTry's answer to the route's outcome: only the logger changes. */
    method Answer(logger: ServiceLogger, outcome: Result<Data, Exception>, logKey: string, debug: bool) returns (r: HttpResponseMessage)
      requires Valid()
      modifies logger`Errors
      ensures Valid() && vehicles == old(vehicles)
      ensures r == SafelyTrySpec(outcome, logKey, debug) && logger.Errors == old(logger.Errors) + Logged(outcome, logKey)
    {
      r := SafelyTry(logger, outcome, logKey, debug);
    }

    /** The try block: the cached vehicle or a newly discovered one, then its run. */
    method RunRoute(key: string, req: HttpRequestMessage, logger: ServiceLogger, caller: CallingMethod<Property>,
                    extras: Option<seq<Data>>)
      returns (outcome: Result<Data, Exception>)
      requires Valid()
      modifies this, vehicles.Values
      ensures Valid()
      ensures var known := if key in old(vehicles) then Some((old(vehicles)[key].callMe, old(vehicles[key].parameterDefinitions))) else None;
        outcome == RouteOutcome(known, caller, BinderFor(req, unescape, parse, groupMessage), extras)
      ensures key in old(vehicles) || Discover(caller).Failure? ==> vehicles == old(vehicles)
      ensures key !in old(vehicles) && Discover(caller).Success? ==>
        key in vehicles && vehicles == old(vehicles)[key := vehicles[key]] && fresh(vehicles[key])
        && vehicles[key].callMe == Discover(caller).value
    {
      if key in vehicles {
        outcome := RunCached(key, req, logger, extras);
      } else {
        var discovered := Discover(caller);
        if discovered.Failure? {
          outcome := Failure(discovered.error);
        } else {
          outcome := RunNew(key, req, logger, extras, discovered.value);
        }
      }
    }
  }
}
