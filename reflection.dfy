/**
 * The reflection the vehicles and launch pads go through, reduced to
 * values: the Azure function that called the launch pad (its name and the
 * type that declares it, with that type's static Handler property if it has
 * one), the handler's type and its public methods, and each method's
 * parameters and behaviour.
 *
 * `P` is the binder's property descriptor: the first parameter of a
 * service method is the argument class, given by its properties.
 */
module Reflection {
  import opened Wrappers
  import opened Exceptions
  import opened Coercion
  import opened Responses

  /** An argument the vehicle passes to a service method. */
  datatype Argument =
    | BoundArguments(Fields: map<string, Value>)
    | LoggerArgument
    | ExtraArgument(Item: Data)

  /**
   * A parameter of a service method: its type's name, for an argument class
   * its properties, and whether its type meets the `new()` constraint of
   * ReadParameters<T> (a value type, or a class with a public parameterless
   * constructor).
   */
  datatype TargetParameter<P> = TargetParameter(TypeName: string, Properties: seq<P>, Constructible: bool)

  const ReadParametersSignature := "T ReadParameters[T](System.Net.Http.HttpRequestMessage)"

  /**
   * The ArgumentException of MakeGenericMethod when the argument class does
   * not meet ReadParameters<T>'s `new()` constraint.
   */
  function ConstraintViolation(typeName: string): Exception {
    Thrown("ArgumentException", "GenericArguments[0], '" + typeName + "', on '" + ReadParametersSignature
      + "' violates the constraint of type 'T'.")
  }

  /**
   * A public method of the handler type (MethodInfo): its name, its
   * parameters, and what running it on the handler gives for a list of
   * arguments of the right length (a return value, or what it throws).
   */
  datatype TargetMethod<P> = TargetMethod(Name: string, Parameters: seq<TargetParameter<P>>, Body: seq<Argument> -> Result<Data, Exception>)

  /** The type of the static Handler property, with its public methods by name. */
  datatype HandlerType<P> = HandlerType(Name: string, Methods: map<string, TargetMethod<P>>)

  /** The Azure function found on the call stack: its name, its declaring type's name and that type's Handler property. */
  datatype CallingMethod<P> = CallingMethod(Name: string, DeclaringTypeName: string, Handler: Option<HandlerType<P>>)

  /** The constructor of Vehicle: the handler type's method with the calling function's name, or the ApplicationException. */
  function FindTarget<P>(handlerType: HandlerType<P>, methodName: string): (r: Result<TargetMethod<P>, Exception>)
    ensures r.Success? <==> methodName in handlerType.Methods
    ensures r.Success? ==> r.value == handlerType.Methods[methodName]
    ensures r.Failure? ==> r.error.Kind == SystemError("ApplicationException")
  {
    if methodName in handlerType.Methods then Success(handlerType.Methods[methodName])
    else Failure(Thrown("ApplicationException", "The type '" + handlerType.Name + "' does not have a method '" + methodName + "'"))
  }

  const ParameterCountMessage := "Parameter count mismatch."

  /**
   * MethodInfo.Invoke(handler, arguments): a wrong number of arguments
   * throws TargetParameterCountException itself; otherwise the method runs,
   * and whatever it throws comes out wrapped in a TargetInvocationException.
   */
  function Invoke<P>(m: TargetMethod<P>, arguments: seq<Argument>): (r: Result<Data, Exception>)
    ensures |arguments| != |m.Parameters| ==> r == Failure(Thrown("Reflection.TargetParameterCountException", ParameterCountMessage))
    ensures |arguments| == |m.Parameters| && m.Body(arguments).Failure? ==> r == Failure(WrapInvocation(m.Body(arguments).error))
    ensures |arguments| == |m.Parameters| && m.Body(arguments).Success? ==> r == m.Body(arguments)
  {
    if |arguments| != |m.Parameters| then Failure(Thrown("Reflection.TargetParameterCountException", ParameterCountMessage))
    else
      match m.Body(arguments)
      case Failure(e) => Failure(WrapInvocation(e))
      case Success(d) => Success(d)
  }

  /** The ApplicationException of a launch pad whose calling function's type has no static Handler property. */
  function MissingHandler(typeName: string): Exception {
    Thrown("ApplicationException", "The type '" + typeName + MissingHandlerText)
  }

  const MissingHandlerText := "' does not have a public static property 'Handler'.  "
    + "This is necessary for RocketScience to discover the object to handle service logic."

  /** What discovering a route's vehicle gives: the target method, or the exception that stops discovery. */
  function Discover<P>(caller: CallingMethod<P>): (r: Result<TargetMethod<P>, Exception>)
    ensures caller.Handler.None? ==> r == Failure(MissingHandler(caller.DeclaringTypeName))
    ensures caller.Handler.Some? ==> r == FindTarget(caller.Handler.value, caller.Name)
  {
    match caller.Handler
    case None => Failure(MissingHandler(caller.DeclaringTypeName))
    case Some(h) => FindTarget(h, caller.Name)
  }
}
