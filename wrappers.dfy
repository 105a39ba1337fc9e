/** Option and Result, and the exceptions of the shipping plugin as values. */
module Wrappers {

  datatype Option<T> = None | Some(value: T)

  /**
   * One constructor per exception class the plugin throws or catches.
   * `Fatal` stands for a PHP `\Error` (a call to a missing method, a private
   * constructor): no `catch (\Exception ...)` in the plugin stops it.
   */
  datatype Failure =
    | InvalidArgument(message: string)       // \InvalidArgumentException
    | ServiceNotFound(message: string)       // ServiceNotFoundException
    | ServiceSupportError(message: string)   // ServiceSupportException
    | ShipmentPackerError(message: string)   // ShipmentPackerException
    | PackageSizeError(message: string)      // PackageSizeException
    | ItemTooLarge(message: string)          // the box packer's ItemTooLargeException
    | RequestError(message: string)          // RequestException
    | ClientError(message: string)           // ClientException
    | ResponseError(message: string)         // ResponseException
    | ConfigurationError(message: string)    // ConfigurationException
    | TransportError(message: string)        // the HTTP client's ClientErrorResponseException
    | Fatal(message: string)                 // \Error

  datatype Result<T> = Ok(value: T) | Err(error: Failure)
  {
    predicate IsFailure() { Err? }

    function PropagateFailure<U>(): Result<U>
      requires Err?
    {
      Err(error)
    }

    function Extract(): T
      requires Ok?
    {
      value
    }
  }
}
