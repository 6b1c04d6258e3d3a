/** Outcomes shared by the analyser's modules: optional values, the exceptions
    the Python code raises, and a Result that carries either a value or one of
    those exceptions. */
module Results {

  datatype Option<+T> = None | Some(value: T)

  /** The exceptions the core can raise, with their messages: Python's
      built-in classes and OpenCV's `cv2.error`. */
  datatype Error =
    | ValueError(message: string)
    | IndexError(message: string)
    | TypeError(message: string)
    | OpenCvError(message: string)

  datatype Result<+T> = Ok(value: T) | Err(error: Error)
}
