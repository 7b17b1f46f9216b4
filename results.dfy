/** Optional values, results, and the Python exceptions the script can raise. */
module Results {

  datatype Option<+T> = None | Some(value: T)

  /** The exceptions eval.py raises on the paths this model covers; each carries the text that caused it. */
  datatype PyError =
    | IndexError(subject: string)        // `x.split("-")[1]` on a name without "-"
    | ValueError(literal: string)        // `int(...)` of a literal that is not an integer
    | TypeError(subject: string)         // subscripting the None returned by a failed `re.search`
    | UnboundLocalError(name: string)    // calling `convert_tf_to_pt` when no branch bound it

  datatype Result<+T> = Ok(value: T) | Err(error: PyError)

  /** The value of a successful result, or 0; used as a sort key once every key is known to be Ok. */
  function OkOrZero(r: Result<int>): int {
    match r
    case Ok(v) => v
    case Err(_) => 0
  }
}
