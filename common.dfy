/** Failure-carrying values shared by every module of the model: Python's
    `None` and its exceptions become explicit values here. */
module Common {

  datatype Option<+T> = None | Some(value: T) {
    function GetOr(default: T): T {
      match this
      case Some(v) => v
      case None => default
    }
  }

  /** `Failure` carries the text of the exception the Python code would raise
      (or catch). */
  datatype Result<+T> = Success(value: T) | Failure(message: string)
}
