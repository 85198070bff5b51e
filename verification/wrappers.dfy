/** Failure-carrying results shared by every module of the CH9329 model, and
    the one error type that stands for the exceptions the driver raises. */
module Wrappers {

  datatype Option<+T> = None | Some(value: T)

  datatype Result<+R> = Ok(value: R) | Err(error: Error) {
    predicate IsFailure() { Err? }

    function PropagateFailure<U>(): Result<U>
      requires Err?
    {
      Err(error)
    }

    function Extract(): R
      requires Ok?
    {
      value
    }
  }

  /** Success or failure of a call that returns nothing. */
  datatype Outcome = Pass | Fail(error: Error)

  /** The exceptions the core can raise, one variant each. */
  datatype Error =
    /** UnsupportedEvdevCodeError: a code outside a translation table. */
    | UnsupportedEvdevCode(code: int)
    /** ValueError "Unsupported character: ..." from the character table. */
    | UnsupportedCharacter(character: string)
    /** ValueError "Maximum 6 keys allowed, got N" from KeyboardState. */
    | TooManyKeys(count: int)
    /** ValueError raised by bytes() for an element outside 0..255. */
    | ByteOutOfRange
    /** ValueError "Unknown operation type: ..." when loading a record. */
    | UnknownOperationType(typeText: string)
    /** KeyError for a record field that is required and absent. */
    | MissingField(field: string)
    /** KeyError for an enumeration member name that does not exist. */
    | UnknownMemberName(name: string)
    /** A record field whose value has the wrong kind (see README). */
    | WrongFieldType(field: string)
    /** ValueError from time.sleep for a negative duration. */
    | NegativeSleep(ticks: int)
    /** ZeroDivisionError from scaling pixels by a zero screen size. */
    | ZeroDivision
}
