/**
 * Vehicle of the shared library: one service call template. On its first
 * run ExecuteHttpRequest checks that the target method takes the argument
 * class, the logger and one parameter per extra argument of that run, and
 * builds the parameter definitions; every later run reuses them without
 * checking again, each extra definition reading its argument by index from
 * the extras of the run at hand.
 */
module SharedVehicle {
  import opened Wrappers
  import opened Text
  import opened Exceptions
  import opened Descriptors
  import opened Coercion
  import opened RequestTranslation
  import opened Responses
  import opened Reflection
  import opened SharedBinder

  datatype ParameterDefinition =
    | FromRequest(Properties: seq<Property>)
    | PassLogger
    | PassExtra(Index: nat)

  function WrongParameterCount(methodName: string, expected: nat, actual: nat): Exception {
    Thrown("ApplicationException", "The target method '" + methodName + "' should have " + NatText(expected)
      + " parameters, but has " + NatText(actual) + ".")
  }

  const SecondNotLoggerText := "' second parameter should be type IServiceLogger."

  function SecondNotLogger(methodName: string): Exception {
    Thrown("ApplicationException", "The target method '" + methodName + SecondNotLoggerText)
  }

  /** The definitions of extras start, start + 1, ..., start + count - 1. */
  function ExtraDefinitions(start: nat, count: nat): (defs: seq<ParameterDefinition>)
    ensures |defs| == count
    ensures forall k :: 0 <= k < count ==> defs[k] == PassExtra(start + k)
    decreases count
  {
    if count == 0 then [] else [PassExtra(start)] + ExtraDefinitions(start + 1, count - 1)
  }

  /**
   * The checks and the definitions built on the first run, for `extraCount`
   * extra arguments: one definition per parameter, the argument class then
   * the logger first; a refused method throws an ApplicationException, or
   * MakeGenericMethod's ArgumentException.
   */
  function Definitions(m: TargetMethod<Property>, extraCount: nat): (r: Result<seq<ParameterDefinition>, Exception>)
    ensures r.Success? ==> |r.value| == |m.Parameters| == 2 + extraCount
                           && r.value[0] == FromRequest(m.Parameters[0].Properties) && r.value[1] == PassLogger
    ensures r.Failure? ==> r.error.Kind == SystemError("ApplicationException") || r.error.Kind == SystemError("ArgumentException")
  {
    if |m.Parameters| != 2 + extraCount then Failure(WrongParameterCount(m.Name, 2 + extraCount, |m.Parameters|))
    else if !m.Parameters[0].Constructible then Failure(ConstraintViolation(m.Parameters[0].TypeName))
    else if m.Parameters[1].TypeName != "IServiceLogger" then Failure(SecondNotLogger(m.Name))
    else Success([FromRequest(m.Parameters[0].Properties), PassLogger] + ExtraDefinitions(0, extraCount))
  }

  /**
   * The definitions are built exactly when the method has two parameters
   * more than there are extras, its first meets the `new()` constraint and
   * its second is the logger: one per parameter, the argument class first,
   * the logger second, then extra k for parameter k + 2. The checks fail in
   * that order: the count, then MakeGenericMethod, then the logger.
   */
  lemma DefinitionsChecks(m: TargetMethod<Property>, extraCount: nat)
    ensures Definitions(m, extraCount).Success? <==>
      |m.Parameters| == 2 + extraCount && m.Parameters[0].Constructible && m.Parameters[1].TypeName == "IServiceLogger"
    ensures |m.Parameters| != 2 + extraCount ==>
      Definitions(m, extraCount) == Failure(WrongParameterCount(m.Name, 2 + extraCount, |m.Parameters|))
    ensures |m.Parameters| == 2 + extraCount && !m.Parameters[0].Constructible ==>
      Definitions(m, extraCount) == Failure(ConstraintViolation(m.Parameters[0].TypeName))
    ensures |m.Parameters| == 2 + extraCount && m.Parameters[0].Constructible && m.Parameters[1].TypeName != "IServiceLogger" ==>
      Definitions(m, extraCount) == Failure(SecondNotLogger(m.Name))
    ensures Definitions(m, extraCount).Success? ==>
      var defs := Definitions(m, extraCount).value;
      |defs| == |m.Parameters| && defs[0] == FromRequest(m.Parameters[0].Properties) && defs[1] == PassLogger
      && forall k :: 2 <= k < |defs| ==> defs[k] == PassExtra(k - 2)
  {
  }

  /** ReadParameters<T> for an argument class, given by its properties. */
  type Reader = seq<Property> -> Result<map<string, Value>, Exception>

  /** The binder of this library, for one request. */
  function BinderFor(request: HttpRequestMessage, unescape: string -> string, parse: Parsers, groupMessage: string): Reader {
    props => ReadParametersSpec(props, request, unescape, parse, groupMessage)
  }

  /**
   * ParameterDefinition.Create with the run's extras: ReadParameters<T>
   * through Invoke, the logger, or `e[index]`, which throws for a null
   * array or an index past its end.
   */
  function Create(d: ParameterDefinition, read: Reader, extras: Option<seq<Data>>): Result<Argument, Exception> {
    match d
    case PassLogger => Success(LoggerArgument)
    case FromRequest(props) =>
      (match read(props)
       case Failure(e) => Failure(WrapInvocation(e))
       case Success(fields) => Success(BoundArguments(fields)))
    case PassExtra(index) =>
      if extras.None? then Failure(Thrown("NullReferenceException", NullReferenceMessage))
      else if index >= |extras.value| then Failure(Thrown("IndexOutOfRangeException", IndexOutOfRangeMessage))
      else Success(ExtraArgument(extras.value[index]))
  }

  function Generate(made: seq<Argument>, defs: seq<ParameterDefinition>, read: Reader, extras: Option<seq<Data>>)
    : Result<seq<Argument>, Exception>
    decreases |defs|
  {
    if defs == [] then Success(made)
    else
      match Create(defs[0], read, extras)
      case Failure(e) => Failure(e)
      case Success(a) => Generate(made + [a], defs[1..], read, extras)
  }

  /** One step of Generate at position i: the argument made there, then the rest, or its exception. */
  lemma GenerateStep(made: seq<Argument>, defs: seq<ParameterDefinition>, i: nat, read: Reader, extras: Option<seq<Data>>)
    requires i < |defs|
    ensures Create(defs[i], read, extras).Failure? ==>
              Generate(made, defs[i..], read, extras) == Failure(Create(defs[i], read, extras).error)
    ensures Create(defs[i], read, extras).Success? ==>
              Generate(made, defs[i..], read, extras) == Generate(made + [Create(defs[i], read, extras).value], defs[i + 1..], read, extras)
  {
    assert defs[i..][0] == defs[i] && defs[i..][1..] == defs[i + 1..];
  }

  function Execute(m: TargetMethod<Property>, defs: seq<ParameterDefinition>, read: Reader, extras: Option<seq<Data>>)
    : Result<Data, Exception>
  {
    match Generate([], defs, read, extras)
    case Failure(e) => Failure(e)
    case Success(arguments) => Invoke(m, arguments)
  }

  /** Extras start, ..., start + count - 1 of `e` as arguments. */
  function ExtraArguments(e: seq<Data>, start: nat, count: nat): (r: seq<Argument>)
    requires start + count <= |e|
    ensures |r| == count
    ensures forall k :: 0 <= k < count ==> r[k] == ExtraArgument(e[start + k])
    decreases count
  {
    if count == 0 then [] else [ExtraArgument(e[start])] + ExtraArguments(e, start + 1, count - 1)
  }

  /**
   * Making the extra arguments: every one when the run has enough extras;
   * a NullReferenceException when it has none at all, an
   * IndexOutOfRangeException when it has too few.
   */
  lemma {:induction false} GenerateExtras(made: seq<Argument>, start: nat, count: nat, read: Reader, extras: Option<seq<Data>>)
    ensures Generate(made, ExtraDefinitions(start, count), read, extras) ==
      if count == 0 then Success(made)
      else if extras.None? then Failure(Thrown("NullReferenceException", NullReferenceMessage))
      else if start + count <= |extras.value| then Success(made + ExtraArguments(extras.value, start, count))
      else Failure(Thrown("IndexOutOfRangeException", IndexOutOfRangeMessage))
    decreases count
  {
    if count > 0 {
      var defs := ExtraDefinitions(start, count);
      assert defs[0] == PassExtra(start) && defs[1..] == ExtraDefinitions(start + 1, count - 1);
      if extras.Some? && start < |extras.value| {
        var a := ExtraArgument(extras.value[start]);
        assert Create(defs[0], read, extras) == Success(a);
        assert Generate(made, defs, read, extras) == Generate(made + [a], defs[1..], read, extras);
        GenerateExtras(made + [a], start + 1, count - 1, read, extras);
        if start + count <= |extras.value| {
          var rest := ExtraArguments(extras.value, start + 1, count - 1);
          assert ExtraArguments(extras.value, start, count) == [a] + rest;
          assert made + [a] + rest == made + ([a] + rest);
          if count == 1 {
            assert rest == [] && made + [a] + rest == made + [a];
          }
        }
      }
    }
  }

  /**
   * A run with definitions built for `n` extras, once the binder succeeds:
   * the method receives the bound object, the logger and the run's first n
   * extras; with no extras array, or fewer than n extras, the run throws
   * before the method is reached; further extras are dropped. A binding
   * failure comes out wrapped in a TargetInvocationException.
   */
  lemma ExecuteOutcomes(m: TargetMethod<Property>, n: nat, read: Reader, extras: Option<seq<Data>>)
    requires Definitions(m, n).Success?
    ensures read(m.Parameters[0].Properties).Failure? ==>
      Execute(m, Definitions(m, n).value, read, extras) == Failure(WrapInvocation(read(m.Parameters[0].Properties).error))
    ensures read(m.Parameters[0].Properties).Success? && n > 0 && extras.None? ==>
      Execute(m, Definitions(m, n).value, read, extras) == Failure(Thrown("NullReferenceException", NullReferenceMessage))
    ensures read(m.Parameters[0].Properties).Success? && n > 0 && extras.Some? && |extras.value| < n ==>
      Execute(m, Definitions(m, n).value, read, extras) == Failure(Thrown("IndexOutOfRangeException", IndexOutOfRangeMessage))
    ensures read(m.Parameters[0].Properties).Success? && (n == 0 || (extras.Some? && n <= |extras.value|)) ==>
      var bound := BoundArguments(read(m.Parameters[0].Properties).value);
      Execute(m, Definitions(m, n).value, read, extras)
        == Invoke(m, [bound, LoggerArgument] + (if n == 0 then [] else ExtraArguments(extras.value, 0, n)))
  {
    var defs := Definitions(m, n).value;
    var props := m.Parameters[0].Properties;
    var first := Create(defs[0], read, extras);
    if first.Success? {
      assert [] + [first.value] == [first.value];
      assert Generate([], defs, read, extras) == Generate([first.value], defs[1..], read, extras);
      assert defs[1..][0] == PassLogger && defs[1..][1..] == ExtraDefinitions(0, n);
      assert [first.value] + [LoggerArgument] == [first.value, LoggerArgument];
      assert Generate([first.value], defs[1..], read, extras) == Generate([first.value, LoggerArgument], ExtraDefinitions(0, n), read, extras);
      GenerateExtras([first.value, LoggerArgument], 0, n, read, extras);
      if n == 0 {
        assert [first.value, LoggerArgument] + [] == [first.value, LoggerArgument];
      }
    }
  }

  /**
   * One run of a vehicle whose cached definitions are `cached`: on the first
   * run (None) the checks against the run's extras, a null extras array
   * counting as empty; then the arguments and the invocation.
   */
  function RunOutcome(m: TargetMethod<Property>, cached: Option<seq<ParameterDefinition>>, read: Reader, extras: Option<seq<Data>>)
    : Result<Data, Exception>
  {
    match cached
    case Some(defs) => Execute(m, defs, read, extras)
    case None =>
      var given := extras.GetOr([]);
      match Definitions(m, |given|)
      case Failure(e) => Failure(e)
      case Success(defs) => Execute(m, defs, read, Some(given))
  }

  /**
   * The first run: a method whose parameter count is not two more than the
   * number of extras is refused with the count in the message; otherwise,
   * once the binder succeeds, the method receives the bound object, the
   * logger and every extra, in order.
   */
  lemma FirstRunOutcomes(m: TargetMethod<Property>, read: Reader, extras: Option<seq<Data>>)
    ensures var n := |extras.GetOr([])|;
      |m.Parameters| != 2 + n ==> RunOutcome(m, None, read, extras) == Failure(WrongParameterCount(m.Name, 2 + n, |m.Parameters|))
    ensures var n := |extras.GetOr([])|;
      Definitions(m, n).Success? && read(m.Parameters[0].Properties).Success? ==>
        RunOutcome(m, None, read, extras)
          == Invoke(m, [BoundArguments(read(m.Parameters[0].Properties).value), LoggerArgument]
                       + (if n == 0 then [] else ExtraArguments(extras.GetOr([]), 0, n)))
  {
    var n := |extras.GetOr([])|;
    DefinitionsChecks(m, n);
    if Definitions(m, n).Success? {
      ExecuteOutcomes(m, n, read, Some(extras.GetOr([])));
    }
  }

  class Vehicle {
    const callMe: TargetMethod<Property>
    /** Uri.UnescapeDataString, the library parsers, and the message a nested group's read produces. */
    const unescape: string -> string
    const parse: Parsers
    const groupMessage: string
    var parameterDefinitions: Option<seq<ParameterDefinition>>
    /** The number of extras of the run that built the definitions. */
    ghost var builtFor: nat

    /** The cached definitions are the ones the checks built for that run's extras. */
    ghost predicate Valid()
      reads this
    {
      parameterDefinitions.Some? ==> Definitions(callMe, builtFor) == Success(parameterDefinitions.value)
    }

    constructor (callMe: TargetMethod<Property>, unescape: string -> string, parse: Parsers, groupMessage: string)
      ensures Valid() && parameterDefinitions.None?
      ensures this.callMe == callMe && this.unescape == unescape && this.parse == parse && this.groupMessage == groupMessage
    {
      this.callMe := callMe;
      this.unescape := unescape;
      this.parse := parse;
      this.groupMessage := groupMessage;
      parameterDefinitions := None;
      builtFor := 0;
    }

    /**
     * ParameterDefinition.Create for this request and the run's extras:
     * ReadParameters<T> through Invoke, the logger, or `e[index]`.
     */
    method CreateArgument(d: ParameterDefinition, request: HttpRequestMessage, extras: Option<seq<Data>>)
      returns (r: Result<Argument, Exception>)
      ensures r == Create(d, BinderFor(request, unescape, parse, groupMessage), extras)
    {
      match d {
        case PassLogger =>
          r := Success(LoggerArgument);
        case FromRequest(props) =>
          var bound := SharedBinder.ReadParameters(props, request, unescape, parse, groupMessage);
          if bound.Failure? {
            r := Failure(WrapInvocation(bound.error));
          } else {
            r := Success(BoundArguments(bound.value));
          }
        case PassExtra(index) =>
          if extras.None? {
            r := Failure(Thrown("NullReferenceException", NullReferenceMessage));
          } else if index >= |extras.value| {
            r := Failure(Thrown("IndexOutOfRangeException", IndexOutOfRangeMessage));
          } else {
            r := Success(ExtraArgument(extras.value[index]));
          }
      }
    }

    /** The loop over the definitions: each argument made in turn, the first failure ending the run. */
    method GenerateParameters(defs: seq<ParameterDefinition>, request: HttpRequestMessage, extras: Option<seq<Data>>)
      returns (r: Result<seq<Argument>, Exception>)
      ensures r == Generate([], defs, BinderFor(request, unescape, parse, groupMessage), extras)
    {
      ghost var read := BinderFor(request, unescape, parse, groupMessage);
      var generated: seq<Argument> := [];
      var i := 0;
      while i < |defs|
        invariant 0 <= i <= |defs|
        invariant Generate(generated, defs[i..], read, extras) == Generate([], defs, read, extras)
      {
        var argument := CreateArgument(defs[i], request, extras);
        GenerateStep(generated, defs, i, read, extras);
        if argument.Failure? {
          return Failure(argument.error);
        }
        generated := generated + [argument.value];
        i := i + 1;
      }
      r := Success(generated);
    }

    /**
     * ExecuteHttpRequest: on the first successful run, the checks against
     * this run's extras (a null extras array counting as empty) and the
     * definitions; then the arguments, made with the extras as passed, and
     * the invocation.
     */
    method ExecuteHttpRequest(request: HttpRequestMessage, logger: ServiceLogger, extras: Option<seq<Data>>)
      returns (r: Result<Data, Exception>)
      requires Valid()
      modifies this
      ensures Valid()
      ensures r == RunOutcome(callMe, old(parameterDefinitions), BinderFor(request, unescape, parse, groupMessage), extras)
      ensures old(parameterDefinitions).Some? ==> parameterDefinitions == old(parameterDefinitions) && builtFor == old(builtFor)
      ensures old(parameterDefinitions).None? ==>
        (parameterDefinitions.Some? <==> Definitions(callMe, |extras.GetOr([])|).Success?)
        && (parameterDefinitions.Some? ==> builtFor == |extras.GetOr([])|)
    {
      var runExtras := extras;
      if parameterDefinitions.None? {
        runExtras := Some(extras.GetOr([]));
        var built := Definitions(callMe, |runExtras.value|);
        if built.Failure? {
          return Failure(built.error);
        }
        parameterDefinitions := Some(built.value);
        builtFor := |runExtras.value|;
      }
      var arguments := GenerateParameters(parameterDefinitions.value, request, runExtras);
      if arguments.Failure? {
        return Failure(arguments.error);
      }
      r := Invoke(callMe, arguments.value);
    }
  }
}
