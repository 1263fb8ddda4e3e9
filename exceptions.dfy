/**
 * The exception types the core throws, catches or filters on, with their .NET
 * base classes, and exception values carrying a message and inner exceptions.
 */
module Exceptions {

  datatype ExnType =
    | Exception
    | SystemException
    | InvalidOperation        // System.InvalidOperationException
    | ObjectDisposed          // System.ObjectDisposedException
    | NotSupported            // System.NotSupportedException
    | NotImplemented          // System.NotImplementedException
    | Argument                // System.ArgumentException
    | NullReference           // System.NullReferenceException
    | TypeLoad                // System.TypeLoadException
    | ExternalException       // System.Runtime.InteropServices.ExternalException
    | Win32                   // System.ComponentModel.Win32Exception
    | Socket                  // System.Net.Sockets.SocketException
    | Db                      // System.Data.Common.DbException
    | HttpRequest             // System.Net.Http.HttpRequestException
    | Aggregate               // System.AggregateException
    | DockerApi               // Docker.DotNet.DockerApiException
    | ContainerLaunch         // the library's ContainerLaunchException
    | ExecutionRejected       // Polly.ExecutionRejectedException
    | TimeoutRejected         // Polly.Timeout.TimeoutRejectedException

  /** The direct base class; `Exception` has none. */
  function BaseType(t: ExnType): (r: ExnType)
    requires t != Exception
  {
    match t
    case SystemException => Exception
    case InvalidOperation => SystemException
    case ObjectDisposed => InvalidOperation
    case NotSupported => SystemException
    case NotImplemented => SystemException
    case Argument => SystemException
    case NullReference => SystemException
    case TypeLoad => SystemException
    case ExternalException => SystemException
    case Win32 => ExternalException
    case Socket => Win32
    case Db => ExternalException
    case HttpRequest => Exception
    case Aggregate => Exception
    case DockerApi => Exception
    case ContainerLaunch => Exception
    case ExecutionRejected => Exception
    case TimeoutRejected => ExecutionRejected
  }

  /** Distance from `Exception` in the class hierarchy. */
  function Depth(t: ExnType): nat {
    match t
    case Exception => 0
    case SystemException | HttpRequest | Aggregate | DockerApi | ContainerLaunch | ExecutionRejected => 1
    case InvalidOperation | NotSupported | NotImplemented | Argument | NullReference | TypeLoad
      | ExternalException | TimeoutRejected => 2
    case ObjectDisposed | Win32 | Db => 3
    case Socket => 4
  }

  /** A base class sits one level closer to `Exception`. */
  lemma BaseDepth(t: ExnType)
    requires t != Exception
    ensures Depth(BaseType(t)) == Depth(t) - 1
  {
  }

  /** `t` followed by its base classes up to `Exception`. */
  function Ancestors(t: ExnType): (r: seq<ExnType>)
    ensures |r| == Depth(t) + 1 && r[0] == t && r[|r| - 1] == Exception
    decreases Depth(t)
  {
    if t == Exception then [Exception]
    else
      BaseDepth(t);
      [t] + Ancestors(BaseType(t))
  }

  /** `typeof(s).IsAssignableFrom(typeof(t))`: a value of type `t` is an `s`. */
  predicate IsA(t: ExnType, s: ExnType) {
    s in Ancestors(t)
  }

  /** The base classes of a base class are a tail of the original list. */
  lemma {:induction false} AncestorsTail(t: ExnType, i: nat)
    requires i < |Ancestors(t)|
    ensures Ancestors(t)[i..] == Ancestors(Ancestors(t)[i])
    decreases Depth(t)
  {
    if i > 0 {
      var b := BaseType(t);
      BaseDepth(t);
      assert Ancestors(t) == [t] + Ancestors(b);
      AncestorsTail(b, i - 1);
      assert Ancestors(t)[i..] == Ancestors(b)[i - 1..];
    }
  }

  /** Being an instance of is inherited by subclasses. */
  lemma IsATransitive(t: ExnType, u: ExnType, s: ExnType)
    requires IsA(t, u) && IsA(u, s)
    ensures IsA(t, s)
  {
    var at := Ancestors(t);
    var i :| 0 <= i < |at| && at[i] == u;
    AncestorsTail(t, i);
    var j :| 0 <= j < |Ancestors(u)| && Ancestors(u)[j] == s;
    assert at[i..][j] == s;
    assert at[i + j] == at[i..][j];
  }

  /** Two types that are instances of each other are the same type. */
  lemma IsAAntisymmetric(t: ExnType, u: ExnType)
    requires IsA(t, u) && IsA(u, t)
    ensures t == u
  {
    var i :| 0 <= i < |Ancestors(t)| && Ancestors(t)[i] == u;
    AncestorsTail(t, i);
    var j :| 0 <= j < |Ancestors(u)| && Ancestors(u)[j] == t;
    AncestorsTail(u, j);
    assert |Ancestors(u)| == |Ancestors(t)| - i;
    assert |Ancestors(t)| == |Ancestors(u)| - j;
  }

  /** Every exception type is an `Exception` and an instance of itself; being an
    * instance of is inherited by subclasses, and two types that are instances of
    * each other are the same type. */
  lemma IsAOrder(t: ExnType, u: ExnType, s: ExnType)
    ensures IsA(t, t) && IsA(t, Exception)
    ensures IsA(t, u) && IsA(u, s) ==> IsA(t, s)
    ensures IsA(t, u) && IsA(u, t) ==> t == u
  {
    assert Ancestors(t)[0] == t;
    assert Ancestors(t)[|Ancestors(t)| - 1] == Exception;
    if IsA(t, u) && IsA(u, s) {
      IsATransitive(t, u, s);
    }
    if IsA(t, u) && IsA(u, t) {
      IsAAntisymmetric(t, u);
    }
  }

  /** An exception value: its type, its message and its inner exceptions
    * (the one `InnerException`, or all of an `AggregateException`'s). */
  datatype Exn = Exn(typ: ExnType, message: string, inner: seq<Exn>)

  /** `t.IsInstanceOfType(e)`. */
  predicate IsInstanceOf(e: Exn, t: ExnType) {
    IsA(e.typ, t)
  }

  function Make(t: ExnType, message: string): Exn {
    Exn(t, message, [])
  }

  /** `new E(message, innerException)`. */
  function Wrap(t: ExnType, message: string, cause: Exn): Exn {
    Exn(t, message, [cause])
  }

  /** What `Dictionary.Add` and `ToDictionary` throw on a key already present. */
  function DuplicateKey(key: string): Exn {
    Make(Argument, "An item with the same key has already been added. Key: " + key)
  }

  /** What `Aggregate` without a seed throws on an empty sequence. */
  const NoElements: Exn := Make(InvalidOperation, "Sequence contains no elements")

  /** What `new TcpClient(host, port)` throws when nothing listens on the port. */
  const ConnectionRefused: Exn := Make(Socket, "Connection refused")

  /** What dereferencing a `null` reference throws. */
  const NullDereference: Exn := Make(NullReference, "Object reference not set to an instance of an object.")
}
