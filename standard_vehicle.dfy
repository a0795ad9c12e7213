/**
 * Vehicle of the DotNetStandard library: one service call template. On its
 * first run ExecuteHttpRequest checks the target method's parameters and
 * builds the parameter definitions (the argument object read from the
 * request by ReadParameters<T>, then the logger); every later run reuses
 * them. Both ReadParameters<T> and the target method are reached through
 * MethodInfo.Invoke, so what they throw arrives wrapped in a
 * TargetInvocationException.
 */
module StandardVehicle {
  import opened Wrappers
  import opened Exceptions
  import opened Coercion
  import opened RequestTranslation
  import opened Responses
  import opened Reflection
  import opened StandardBinder

  /** A ParameterDefinition: how one argument of the service method is made. */
  datatype ParameterDefinition =
    | FromRequest(Properties: seq<StandardProperty>)
    | PassLogger

  const TooFewText := "' has too few parameters. It must have at least two: (MyArguments args, IServiceLogger logger, ...)"
  const LoggerFirstText := "' first parameter should be your argument class type, not IServiceLogger."

  function TooFewParameters(methodName: string): Exception {
    Thrown("ApplicationException", "The target method '" + methodName + TooFewText)
  }

  function LoggerFirst(methodName: string): Exception {
    Thrown("ApplicationException", "The target method '" + methodName + LoggerFirstText)
  }

  /**
   * The checks and the definitions built on the first run: the argument
   * class then the logger; a refused method throws an ApplicationException,
   * or MakeGenericMethod's ArgumentException.
   */
  function Definitions(m: TargetMethod<StandardProperty>): (r: Result<seq<ParameterDefinition>, Exception>)
    ensures r.Failure? ==> r.error.Kind == SystemError("ApplicationException") || r.error.Kind == SystemError("ArgumentException")
  {
    if |m.Parameters| < 2 then Failure(TooFewParameters(m.Name))
    else if m.Parameters[0].TypeName == "IServiceLogger" then Failure(LoggerFirst(m.Name))
    else if !m.Parameters[0].Constructible then Failure(ConstraintViolation(m.Parameters[0].TypeName))
    else Success([FromRequest(m.Parameters[0].Properties), PassLogger])
  }

  /**
   * The definitions are built exactly for a method with at least two
   * parameters whose first is not the logger and meets the `new()`
   * constraint: the argument class read from the request, then the logger.
   * Nothing else about the parameters is checked.
   */
  lemma DefinitionsChecks(m: TargetMethod<StandardProperty>)
    ensures Definitions(m).Success? <==>
      |m.Parameters| >= 2 && m.Parameters[0].TypeName != "IServiceLogger" && m.Parameters[0].Constructible
    ensures |m.Parameters| < 2 ==> Definitions(m) == Failure(TooFewParameters(m.Name))
    ensures |m.Parameters| >= 2 && m.Parameters[0].TypeName == "IServiceLogger" ==> Definitions(m) == Failure(LoggerFirst(m.Name))
    ensures |m.Parameters| >= 2 && m.Parameters[0].TypeName != "IServiceLogger" && !m.Parameters[0].Constructible ==>
      Definitions(m) == Failure(ConstraintViolation(m.Parameters[0].TypeName))
    ensures Definitions(m).Success? ==> Definitions(m).value == [FromRequest(m.Parameters[0].Properties), PassLogger]
  {
  }

  /** ReadParameters<T> for an argument class, given by its properties: the bound object or what the binder throws. */
  type Reader = seq<StandardProperty> -> Result<map<string, Value>, Exception>

  /** The binder of this library, for one request. */
  function BinderFor(request: HttpRequestMessage, unescape: string -> string, parse: Parsers): Reader {
    props => ReadParametersSpec(props, request, unescape, parse)
  }

  /** ParameterDefinition.Create: ReadParameters<T> through Invoke, or the logger itself. */
  function Create(d: ParameterDefinition, read: Reader): Result<Argument, Exception> {
    match d
    case PassLogger => Success(LoggerArgument)
    case FromRequest(props) =>
      match read(props)
      case Failure(e) => Failure(WrapInvocation(e))
      case Success(fields) => Success(BoundArguments(fields))
  }

  /** The arguments made so far (`made`) followed by those of the remaining definitions, or the first exception. */
  function Generate(made: seq<Argument>, defs: seq<ParameterDefinition>, read: Reader): Result<seq<Argument>, Exception>
    decreases |defs|
  {
    if defs == [] then Success(made)
    else
      match Create(defs[0], read)
      case Failure(e) => Failure(e)
      case Success(a) => Generate(made + [a], defs[1..], read)
  }

  /** One run with given definitions: make the arguments in order, then invoke the method. */
  function Execute(m: TargetMethod<StandardProperty>, defs: seq<ParameterDefinition>, read: Reader): Result<Data, Exception> {
    match Generate([], defs, read)
    case Failure(e) => Failure(e)
    case Success(arguments) => Invoke(m, arguments)
  }

  /** ExecuteHttpRequest as seen from outside: the checks, then a run; whether the definitions were cached makes no difference. */
  function ExecuteHttpRequestSpec(m: TargetMethod<StandardProperty>, read: Reader): Result<Data, Exception> {
    match Definitions(m)
    case Failure(e) => Failure(e)
    case Success(defs) => Execute(m, defs, read)
  }

  /** The two definitions make the bound object and then the logger, or fail with the wrapped binding error. */
  lemma GenerateBoundThenLogger(props: seq<StandardProperty>, read: Reader)
    ensures Generate([], [FromRequest(props), PassLogger], read)
      == if read(props).Failure? then Failure(WrapInvocation(read(props).error)) else Success([BoundArguments(read(props).value), LoggerArgument])
  {
    var defs := [FromRequest(props), PassLogger];
    var first := Create(defs[0], read);
    if first.Success? {
      assert [] + [first.value] == [first.value];
      assert Generate([], defs, read) == Generate([first.value], defs[1..], read);
      assert defs[1..] == [PassLogger] && defs[1..][1..] == [];
      assert Create(PassLogger, read) == Success(LoggerArgument);
      assert [first.value] + [LoggerArgument] == [first.value, LoggerArgument];
      assert Generate([first.value], defs[1..], read) == Generate([first.value, LoggerArgument], [], read);
    }
  }

  /**
   * For a method that passes the checks: a binding failure comes out
   * wrapped in a TargetInvocationException; otherwise the method receives
   * the bound object and the logger, and a method with more than two
   * parameters fails with a parameter count mismatch.
   */
  lemma ExecuteOutcomes(m: TargetMethod<StandardProperty>, read: Reader)
    requires Definitions(m).Success?
    ensures read(m.Parameters[0].Properties).Failure? ==>
      ExecuteHttpRequestSpec(m, read) == Failure(WrapInvocation(read(m.Parameters[0].Properties).error))
    ensures read(m.Parameters[0].Properties).Success? ==>
      ExecuteHttpRequestSpec(m, read) == Invoke(m, [BoundArguments(read(m.Parameters[0].Properties).value), LoggerArgument])
    ensures read(m.Parameters[0].Properties).Success? && |m.Parameters| > 2 ==>
      ExecuteHttpRequestSpec(m, read) == Failure(Thrown("Reflection.TargetParameterCountException", ParameterCountMessage))
  {
    GenerateBoundThenLogger(m.Parameters[0].Properties, read);
  }

  /** Vehicle: the target method and the parameter definitions, built on the first run. */
  class Vehicle {
    const callMe: TargetMethod<StandardProperty>
    /** Uri.UnescapeDataString and the library parsers ReadParameters<T> uses. */
    const unescape: string -> string
    const parse: Parsers
    var parameterDefinitions: Option<seq<ParameterDefinition>>
    /** How many times the definitions have been built. */
    ghost var builds: nat

    /** What the checks give for this vehicle's method. */
    ghost const expected: Result<seq<ParameterDefinition>, Exception>

    /** `expected` is what Definitions gives for the target method. */
    ghost predicate Checks() {
      expected == Definitions(callMe)
    }

    /** The cached definitions are the ones the checks build, and they were built once. */
    ghost predicate Valid()
      reads this
    {
      (parameterDefinitions.Some? ==> expected == Success(parameterDefinitions.value))
      && builds == (if parameterDefinitions.Some? then 1 else 0)
    }

    /**
     * The constructor once FindTarget has found the method: nothing built
     * yet. `expected` is the ghost value of the checks for that method.
     */
    constructor (callMe: TargetMethod<StandardProperty>, unescape: string -> string, parse: Parsers,
                 ghost expected: Result<seq<ParameterDefinition>, Exception>)
      requires expected == Definitions(callMe)
      ensures Valid() && Checks() && parameterDefinitions.None?
      ensures this.callMe == callMe && this.unescape == unescape && this.parse == parse
    {
      this.callMe := callMe;
      this.expected := expected;
      this.unescape := unescape;
      this.parse := parse;
      parameterDefinitions := None;
      builds := 0;
    }

    /** ParameterDefinition.Create for this request: ReadParameters<T> through Invoke, or the logger. */
    method CreateArgument(d: ParameterDefinition, request: HttpRequestMessage) returns (r: Result<Argument, Exception>)
      ensures r == Create(d, BinderFor(request, unescape, parse))
    {
      match d {
        case PassLogger =>
          r := Success(LoggerArgument);
        case FromRequest(props) =>
          var bound := StandardBinder.ReadParameters(props, request, unescape, parse);
          if bound.Failure? {
            r := Failure(WrapInvocation(bound.error));
          } else {
            r := Success(BoundArguments(bound.value));
          }
      }
    }

    /** The loop over the definitions: each argument made in turn, the first failure ending the run. */
    method GenerateParameters(defs: seq<ParameterDefinition>, request: HttpRequestMessage) returns (r: Result<seq<Argument>, Exception>)
      ensures r == Generate([], defs, BinderFor(request, unescape, parse))
    {
      ghost var read := BinderFor(request, unescape, parse);
      var generated: seq<Argument> := [];
      var i := 0;
      while i < |defs|
        invariant 0 <= i <= |defs|
        invariant Generate(generated, defs[i..], read) == Generate([], defs, read)
      {
        assert defs[i..][0] == defs[i] && defs[i..][1..] == defs[i + 1..];
        var argument := CreateArgument(defs[i], request);
        if argument.Failure? {
          return Failure(argument.error);
        }
        generated := generated + [argument.value];
        i := i + 1;
      }
      r := Success(generated);
    }

    /** ExecuteHttpRequest: build the definitions if they are missing, make the arguments, invoke the method. */
    method ExecuteHttpRequest(request: HttpRequestMessage, logger: ServiceLogger) returns (r: Result<Data, Exception>)
      requires Valid() && Checks()
      modifies this
      ensures Valid()
      ensures r == ExecuteHttpRequestSpec(callMe, BinderFor(request, unescape, parse))
      ensures old(parameterDefinitions).Some? ==> parameterDefinitions == old(parameterDefinitions)
      ensures parameterDefinitions.Some? <==> expected.Success?
    {
      if parameterDefinitions.None? {
        var built := Definitions(callMe);
        if built.Failure? {
          return Failure(built.error);
        }
        parameterDefinitions := Some(built.value);
        builds := builds + 1;
      }
      var arguments := GenerateParameters(parameterDefinitions.value, request);
      if arguments.Failure? {
        return Failure(arguments.error);
      }
      r := Invoke(callMe, arguments.value);
    }
  }

  /** Two runs of one vehicle: the definitions are built once, and each run answers as the specification says. */
  method ExecuteTwice(v: Vehicle, first: HttpRequestMessage, second: HttpRequestMessage, logger: ServiceLogger)
    returns (a: Result<Data, Exception>, b: Result<Data, Exception>)
    requires v.Valid() && v.Checks() && v.parameterDefinitions.None? && Definitions(v.callMe).Success?
    modifies v
    ensures v.builds == 1
    ensures a == ExecuteHttpRequestSpec(v.callMe, BinderFor(first, v.unescape, v.parse))
    ensures b == ExecuteHttpRequestSpec(v.callMe, BinderFor(second, v.unescape, v.parse))
  {
    a := v.ExecuteHttpRequest(first, logger);
    b := v.ExecuteHttpRequest(second, logger);
  }
}
