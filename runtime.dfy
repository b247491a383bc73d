/**
 * What the Author record needs from its surroundings: exceptions, results,
 * UUID values and the external library calls it makes.
 */
module Runtime {
  import opened PhpStrings

  datatype Option<+T> = None | Some(value: T)

  /** The outcome of a PHP call that returns a value or throws. */
  datatype Result<+T, +E> = Success(value: T) | Failure(error: E) {
    predicate IsFailure() { Failure? }

    function PropagateFailure<U>(): Result<U, E>
      requires Failure?
    {
      Failure(error)
    }

    function Extract(): T
      requires Success?
    {
      value
    }

    /** Forgets the value: whether the call returned or what it threw. */
    function ToOutcome(): (o: Outcome<E>)
      ensures o.Fail? <==> Failure?
      ensures o.Fail? ==> o.error == error
    {
      if Success? then Pass else Fail(error)
    }
  }

  /** The outcome of a PHP call returning void: it returns or it throws. */
  datatype Outcome<+E> = Pass | Fail(error: E)

  /** The classes of the throwables the record raises or passes on. */
  datatype ExceptionClass =
    | InvalidArgumentException
    | RangeException
    | TypeError
    | OtherException  // any other \Exception subclass the UUID validator may throw
    | PhpError        // \Error, e.g. instantiating a class that does not exist

  /** A thrown object: its class and its message. */
  datatype Thrown = Thrown(cls: ExceptionClass, message: string)

  /** A 128-bit UUID value (a Ramsey\Uuid\Uuid object). */
  newtype Uuid = x: int | 0 <= x < 0x1_0000_0000_0000_0000_0000_0000_0000_0000

  /** What setAuthorId accepts: a string form of an id, or a Uuid object. */
  datatype IdInput = IdString(s: PhpString) | IdObject(uuid: Uuid)

  /**
   * The library calls the record makes and whose code is not part of this
   * model, as total functions supplied by the caller:
   *  - validateUuid: the ValidateUuid trait's validateUuid(), which returns a
   *    Uuid or throws;
   *  - uuidToString: Uuid::toString(), the canonical hyphenated form;
   *  - isValidEmail: whether filter_var(s, FILTER_VALIDATE_EMAIL) accepts s
   *    (when it does it returns s itself);
   *  - hashAlgoName: password_get_info(s)["algoName"];
   *  - sanitizeString: filter_var(s, FILTER_SANITIZE_STRING, FILTER_FLAG_NO_ENCODE_QUOTES).
   */
  datatype Library = Library(
    validateUuid: IdInput -> Result<Uuid, Thrown>,
    uuidToString: Uuid -> PhpString,
    isValidEmail: PhpString -> bool,
    hashAlgoName: PhpString -> PhpString,
    sanitizeString: PhpString -> PhpString)
}
