/**
 * The dynamic Python values the blog's core passes around, and the
 * exceptions it raises, as data.
 */
module Values {

  /** A scalar Python value. Floats and other non-iterable objects are opaque tokens. */
  datatype Value =
    | Null                      // None
    | Int(i: int)
    | Str(s: string)
    | Bool(b: bool)
    | Opaque(token: nat)        // a float, a timestamp, any other non-iterable object

  /**
   * Python truthiness. An opaque value counts as true: a float 0.0 is
   * the one opaque value Python would treat as false.
   */
  predicate Truthy(v: Value)
  {
    match v
    case Null => false
    case Int(i) => i != 0
    case Str(s) => s != ""
    case Bool(b) => b
    case Opaque(_) => true
  }

  /** The exceptions raised by the modelled code. */
  datatype Error =
    | PrimaryKeyNotFound                 // registration: no field has primary_key
    | DuplicatePrimaryKey(field: string) // registration: second primary key
    | ValueError(msg: string)
    | KeyError(key: string)
    | AttributeError(key: string)
    | TypeError(msg: string)
    | StatementError(code: nat)          // anything the database driver raises

  datatype Result<T> = Ok(value: T) | Err(error: Error)

  datatype Option<T> = None | Some(value: T)
}
