/**
 * The exceptions that can escape the token-validation pipeline other than
 * an HTTP error, and the text `str(e)` gives for each.
 */
module PyErrors {

  datatype PyError =
      /** `d[k]` on a dict without key `k`. */
    | KeyError(key: string)
      /** `x["kid"]` on a value that is not a dict (a TypeError). */
    | NotSubscriptable(typeName: string)
      /** `len(x)` on a value without a length (a TypeError). */
    | NoLen(typeName: string)
      /** `x.attr` on a value without that attribute (an AttributeError). */
    | NoAttribute(typeName: string, attribute: string)
      /** An exception raised inside a library call; `message` is its `str()`. */
    | LibraryError(message: string)

  /** A step that either yields a value or raises. */
  datatype Fallible<+T> = Ok(value: T) | Raises(error: PyError)

  /** `str(e)`, in the wording of CPython 3.11 and later. */
  function Message(e: PyError): string
  {
    match e
    case KeyError(k) => "'" + k + "'"
    case NotSubscriptable(t) =>
      if t == "str" then "string indices must be integers, not 'str'"
      else if t == "list" then "list indices must be integers or slices, not str"
      else "'" + t + "' object is not subscriptable"
    case NoLen(t) => "object of type '" + t + "' has no len()"
    case NoAttribute(t, a) => "'" + t + "' object has no attribute '" + a + "'"
    case LibraryError(m) => m
  }
}
