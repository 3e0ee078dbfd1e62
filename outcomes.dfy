/** The exceptions the modelled Python code can raise, as values. */
module Outcomes {

  /** The Python exception a call ends with. */
  datatype Error =
    | KeyError           // a dictionary lookup of a missing key
    | ZeroDivisionError  // a true division by zero
    | IndexError         // `random.choice` on an empty list
    | ValueError         // `random.choices` with weights whose total is not positive

  /** Either the value a call returns or the exception it raises. */
  datatype Result<+T> = Ok(value: T) | Err(error: Error)
}
