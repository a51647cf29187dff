/** Shared wrappers: optional values, results carrying the Python exception
    a rendering step raises, and bytes. */
module Base {

  datatype Option<+T> = None | Some(value: T)

  /** The exception kinds the rendering code can raise.  Each names the
      Python exception class the source raises (or lets escape). */
  datatype PyError =
    | ValueError            // explicit `raise ValueError`, int()/float() of bad text
    | RuntimeError          // maxfeatures without priorityfield
    | KeyError(key: string) // missing mandatory dictionary key / unknown GPX field
    | AttributeError(name: string) // getattr of a missing attribute or method
    | NameError(name: string)      // undefined or unbound name (incl. UnboundLocalError)
    | TypeError             // operation applied to a value of the wrong type
    | IndexError            // sequence index out of range
    | AssertionError        // Django's "negative indexing is not supported"
    | UnicodeEncodeError    // str() of non-ASCII unicode under Python 2
    | UnicodeDecodeError    // unicode() of non-ASCII bytes under Python 2

  datatype Result<+T> = Ok(value: T) | Err(error: PyError)

  /** An octet of a Python 2 byte string. */
  newtype byte = x: int | 0 <= x < 256
}
