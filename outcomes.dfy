/** Python values that cross the adapter's boundary, as far as its logic inspects them:
    optional values, exception objects, and the outcome of a call into code outside
    the model (a provider client, a validator, a secret store). */
module Outcomes {

  /** A value that may be absent (a missing dictionary key, `None`). */
  datatype Option<+T> = None | Some(value: T)

  /** An exception object: `typeName` is the qualified class name that `str(type(e))`
      shows between the quotes, `message` is `str(e)`. */
  datatype PyException = PyException(typeName: string, message: string)

  /** What a call into code outside the model does: return a value or raise. */
  datatype Outcome<+T> = Returned(value: T) | Raised(exc: PyException)

  /** `str(type(e))`, the rendering of an exception's class. */
  function TypeRepr(e: PyException): string
  {
    "<class '" + e.typeName + "'>"
  }

  /** The text `f"{type(e)}: {str(e)}"`: the class, a colon, then the message. */
  function Describe(e: PyException): string
  {
    TypeRepr(e) + ": " + e.message
  }

  /** The rendering as one piece of text around the class name. */
  lemma DescribeText(e: PyException)
    ensures Describe(e) == "<class '" + e.typeName + "'>: " + e.message
  {
    assert "'>" + ": " == "'>: ";
    var n, m := e.typeName, e.message;
    assert ("<class '" + n + "'>") + ": " + m == "<class '" + n + ("'>" + ": ") + m;
  }
}
