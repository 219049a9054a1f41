/**
 * Outcomes of PHP calls: a value, or a thrown object.
 *
 * PHP splits throwables into two families: subclasses of `Exception`, which the
 * `catch (Exception $e)` blocks of the services and repositories catch, and
 * subclasses of `Error` (here only `TypeError`), which those blocks let through.
 */
module Exceptions {

  datatype Option<+T> = None | Some(value: T) {
    /** `$x ?? $default` once null and "absent" have been merged into None. */
    function GetOr(default: T): T {
      match this
      case Some(v) => v
      case None => default
    }
  }

  /** The class of a throwable, as far as the modelled code tells classes apart. */
  datatype Class =
    | RuntimeException
    | InvalidArgumentException
    | ErrorException                 // a PHP warning, rethrown by the framework's error handler
    | ModelNotFoundException         // Eloquent's findOrFail on a missing id
    | QueryException                 // a database error
    | OtherException(name: string)   // raised by a collaborator (HTTP client, driver, ...)
    | TypeError                      // strict types: an argument or return value of the wrong type
    | OtherError(name: string)

  datatype Throwable = Throwable(cls: Class, message: string) {
    /** Is this caught by `catch (Exception $e)`? */
    predicate IsException() {
      !(cls.TypeError? || cls.OtherError?)
    }
  }

  datatype Result<+T> = Ok(value: T) | Fail(error: Throwable) {
    predicate IsFailure() {
      Fail?
    }

    function PropagateFailure<U>(): Result<U>
      requires Fail?
    {
      Fail(error)
    }

    function Extract(): T
      requires Ok?
    {
      value
    }
  }

  /**
   * The repositories' handler
   * `catch (Exception $e) { throw new RuntimeException($prefix . $e->getMessage(), 0, $e); }`:
   * exceptions come back as one RuntimeException whose message starts with the prefix;
   * errors are not caught and leave unchanged.
   */
  function Rewrap(prefix: string, e: Throwable): Throwable {
    if e.IsException() then Throwable(RuntimeException, prefix + e.message) else e
  }

  /**
   * A `try { ... } catch (Exception $e) { throw new RuntimeException($prefix . $e->getMessage(), 0, $e); }`
   * block around a computation.
   */
  function Catch<T>(prefix: string, r: Result<T>): (c: Result<T>)
    ensures r.Ok? ==> c == r
    ensures r.Fail? && r.error.IsException() ==> c == Fail(Throwable(RuntimeException, prefix + r.error.message))
    ensures r.Fail? && !r.error.IsException() ==> c == r
  {
    match r
    case Ok(_) => r
    case Fail(e) => Fail(Rewrap(prefix, e))
  }

  /**
   * The outcome of a computation that may not terminate in the source: its result, or
   * the verdict that it did not finish within the rounds the model allowed it.
   */
  datatype Run<+T> = Completed(result: Result<T>) | OutOfFuel
}
