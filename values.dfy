/** Python values the wizard stores and prints.
    The bot's scratch dictionary holds either a `str` or `None`; this module
    gives that value type and the two Python behaviours the wizard relies on:
    truthiness (`if value:`) and f-string formatting (`f"{value}"`). */
module Values {

  datatype Option<+T> = None | Some(value: T)

  datatype Result<+T, +E> = Success(value: T) | Failure(error: E)

  /** A Python `str | None`. */
  type PyStr = Option<string>

  /** Python truthiness of a `str | None`: `None` and `""` are false. */
  predicate Truthy(v: PyStr) {
    v.Some? && v.value != ""
  }

  /** What `f"{v}"` renders: the string itself, or "None". */
  function Show(v: PyStr): string {
    match v
    case Some(s) => s
    case None => "None"
  }
}
