/**
 * Shared value types: Java's `null`-or-value as `Option`, and a method that
 * either returns or throws as `Result`, with the thrown exception named by
 * its class in `Fault`.
 */
module Wrappers {

  datatype Option<T> = None | Some(value: T)

  /** The exception classes the library throws or lets escape. */
  datatype Fault =
    | DBUtilsException
    | InsertException
    | InsertFailedException
    | DatabaseBackupException
    | ConfigFileNotFoundException
    | FileNotFoundException
    | IOException
    | ArrayIndexOutOfBoundsException
    | NullPointerException(message: string)  // an implicit null dereference has message ""

  /**
   * Whether a `catch (DBUtilsException e)` clause catches this fault: the
   * library's own exception and its subclasses.
   */
  predicate IsDBUtilsException(f: Fault)
  {
    f.DBUtilsException? || f.InsertException? || f.ConfigFileNotFoundException?
  }

  datatype Result<T> = Ok(value: T) | Err(fault: Fault)
  {
    predicate IsFailure() { Err? }

    function PropagateFailure<U>(): Result<U>
      requires Err?
    {
      Err(fault)
    }

    function Extract(): T
      requires Ok?
    {
      value
    }
  }

  /** `null` or a mapped value, as a method returning a nullable value reports it. */
  function Present<T>(r: Result<T>): (p: Result<Option<T>>)
    ensures r.Ok? <==> p.Ok?
    ensures r.Ok? ==> p.value == Some(r.value)
    ensures r.Err? ==> p.fault == r.fault
  {
    match r
    case Ok(v) => Ok(Some(v))
    case Err(f) => Err(f)
  }

  /**
   * A class-path resource that exists: the text a reader gets from it,
   * whether reading it to the end throws `IOException`, and whether closing
   * it does.
   */
  datatype Resource = Resource(text: string, readFails: bool, closeFails: bool)

  /** The resources a class can load, by absolute path; a path not in the map is missing. */
  type Resources = map<string, Resource>

  /** A void Java method: it returns normally or throws. */
  type Outcome = Result<()>

  const Done: Outcome := Ok(())
}
