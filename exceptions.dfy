/**
 * The exceptions that travel through the binder, the vehicles and the
 * launch pads: ServiceOperationException with its error code, the
 * TargetInvocationException that reflection wraps around whatever an invoked
 * method throws, and every other System exception by type name.
 */
module Exceptions {
  import opened Wrappers

  /** ServiceOperationError of the shared library: five members, five distinct values. */
  datatype ServiceOperationError = NoError | FatalError | AuthorizationError | BadParameter | DataError

  /** Enum.ToString of a ServiceOperationError. */
  function ErrorCodeName(code: ServiceOperationError): string {
    match code
    case NoError => "NoError"
    case FatalError => "FatalError"
    case AuthorizationError => "AuthorizationError"
    case BadParameter => "BadParameter"
    case DataError => "DataError"
  }

  /** In the shared library every code has its own name, so the name identifies the code. */
  lemma ErrorCodeNamesDistinct(a: ServiceOperationError, b: ServiceOperationError)
    requires ErrorCodeName(a) == ErrorCodeName(b)
    ensures a == b
  {
  }

  datatype ExceptionKind =
    | ServiceOperation(ErrorCode: ServiceOperationError)
      /** Reflection's wrapper; its Message is the fixed InvocationMessage. */
    | TargetInvocation(InnerException: Exception)
      /** Any other exception, by its type name (ApplicationException, ArgumentException, ...). */
    | SystemError(TypeName: string)

  /** A thrown exception: what it is, its Message and its StackTrace (null when none was recorded). */
  datatype Exception = Exception(Kind: ExceptionKind, Message: string, StackTrace: Option<string>)

  const InvocationMessage := "Exception has been thrown by the target of an invocation."
  const NullReferenceMessage := "Object reference not set to an instance of an object."
  const IndexOutOfRangeMessage := "Index was outside the bounds of the array."

  /** `new ServiceOperationException(code, message)`, as thrown by the model. */
  function ServiceOperationException(code: ServiceOperationError, message: string): Exception {
    Exception(ServiceOperation(code), message, None)
  }

  /** `new X(message)` for a System exception type X, as thrown by the model. */
  function Thrown(typeName: string, message: string): Exception {
    Exception(SystemError(typeName), message, None)
  }

  /** What MethodBase.Invoke throws when the invoked method throws `inner`. */
  function WrapInvocation(inner: Exception): Exception {
    Exception(TargetInvocation(inner), InvocationMessage, None)
  }

  /** The exception's full type name, as Exception.ToString starts. */
  function TypeNameOf(e: Exception): string {
    match e.Kind
    case ServiceOperation(_) => "Microsoft.Azure.Functions.AFRocketScience.ServiceOperationException"
    case TargetInvocation(_) => "System.Reflection.TargetInvocationException"
    case SystemError(n) => "System." + n
  }

  /** Exception.ToString, without the inner-exception and stack-trace lines. */
  function ExceptionText(e: Exception): string {
    TypeNameOf(e) + ": " + e.Message
  }
}
