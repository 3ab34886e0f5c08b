/** Option and Result types, and the Python exceptions the pipeline raises or catches. */
module Wrappers {

  datatype Option<+T> = None | Some(value: T)
  {
    function GetOr(default: T): T
    {
      match this
      case Some(v) => v
      case None => default
    }
  }

  /** The exception classes the source raises or catches, by name. */
  datatype Error =
    | ValueError(message: string)
    | TypeError
    | KeyError(key: string)
    | AttributeError(name: string)
    | DecodeError
      /** An external collaborator (DynamoDB, SQS, SNS, Lambda, Bedrock, the search API) raised. */
    | ServiceError(service: string)

  /** `str(e)` for an exception, as far as the model keeps its text. */
  function Describe(e: Error): string
  {
    match e
    case ValueError(message) => message
    case TypeError => "unsupported operand type"
    case KeyError(key) => "'" + key + "'"
    case AttributeError(name) => "object has no attribute '" + name + "'"
    case DecodeError => "Expecting value"
    case ServiceError(service) => service + " request failed"
  }

  datatype Result<+T> = Ok(value: T) | Err(error: Error)
}
