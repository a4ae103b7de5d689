/**
 * The part of Python's exception model that the harness relies on: a closed
 * set of exception classes with their single-inheritance parent, the
 * `except C` matching rule (an exception is caught by `except C` when its
 * class is `C` or a subclass of `C`), and the verdict of a test or helper
 * body: it either completes or lets one exception escape.
 */
module Exceptions {
  import opened Wrappers

  /** The exception classes that occur in the harness (builtins and pymongo). */
  datatype ErrorClass =
    | BaseException
    | Exception
    | KeyboardInterrupt
    | AssertionError
    | AttributeError
    | LookupError
    | KeyError
    | IndexError
    | ArithmeticError
    | ZeroDivisionError
    | TypeError
    | PyMongoError
    | OperationFailure
    | ConnectionFailure

  /** Direct base class; `BaseException` is the root of the hierarchy. */
  function Parent(c: ErrorClass): (p: Option<ErrorClass>)
    ensures p.None? <==> c == BaseException
    ensures p.Some? ==> Rank(p.value) < Rank(c)
  {
    match c
    case BaseException => None
    case Exception => Some(BaseException)
    case KeyboardInterrupt => Some(BaseException)
    case AssertionError => Some(Exception)
    case AttributeError => Some(Exception)
    case LookupError => Some(Exception)
    case KeyError => Some(LookupError)
    case IndexError => Some(LookupError)
    case ArithmeticError => Some(Exception)
    case ZeroDivisionError => Some(ArithmeticError)
    case TypeError => Some(Exception)
    case PyMongoError => Some(Exception)
    case OperationFailure => Some(PyMongoError)
    case ConnectionFailure => Some(PyMongoError)
  }

  /** Depth of a class below `BaseException`; it bounds the walk up the hierarchy. */
  function Rank(c: ErrorClass): nat {
    match c
    case BaseException => 0
    case Exception | KeyboardInterrupt => 1
    case AssertionError | AttributeError | LookupError | ArithmeticError | TypeError | PyMongoError => 2
    case KeyError | IndexError | ZeroDivisionError | OperationFailure | ConnectionFailure => 3
  }

  /** `issubclass(c, d)`: `d` is `c` or one of its ancestors. */
  predicate IsSubclass(c: ErrorClass, d: ErrorClass)
    decreases Rank(c)
  {
    c == d || (Parent(c).Some? && IsSubclass(Parent(c).value, d))
  }

  /** The outcome of running a body: it completes, or the named exception escapes it. */
  datatype Verdict = Pass | Raises(error: ErrorClass)

  /** Runs `second` after `first` unless `first` has already raised. */
  function Then(first: Verdict, second: Verdict): (v: Verdict)
    ensures v.Pass? <==> first.Pass? && second.Pass?
    ensures first.Raises? ==> v == first
  {
    if first.Pass? then second else first
  }

  /** `assert cond`: completes or raises `AssertionError`. */
  function Assert(cond: bool): (v: Verdict)
    ensures v.Pass? <==> cond
    ensures v.Raises? ==> v.error == AssertionError
  {
    if cond then Pass else Raises(AssertionError)
  }
}
