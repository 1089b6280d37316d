/** Shapes of the parsed JSON the analysis code receives.
    A JSON object key can be missing, hold `null`, or hold a value; JavaScript's
    optional chaining treats the first two alike, Python's `dict.get(key, default)`
    does not, so the model keeps them apart. */
module Json {

  /** One key of a JSON object. */
  datatype Field<+T> = Absent | Null | Present(value: T)

  /** Python's `None` beside an ordinary value. */
  datatype Option<+T> = None | Some(value: T)

  datatype Result<+T, +E> = Ok(value: T) | Err(error: E)

  /** The top-level value of one uploaded JSON file: an array of elements or anything else. */
  datatype Document<+T> = Array(elements: seq<T>) | NotArray

  /** The status and message of an HTTP error response. */
  datatype HttpError = HttpError(status: int, message: string)
}
