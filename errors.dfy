/** Error taxonomy of the orchestrator and the result/option wrappers used by every module. */
module Errors {

  /** The error kinds of the crate; each carries its human-readable detail. */
  datatype Error =
    | NoProviders(detail: string)
    | Provider(detail: string)
    | Workflow(detail: string)
    | InvalidState(detail: string)
    | Config(detail: string)
    | Serialization(detail: string)
    | Io(detail: string)
    | PermissionDenied(detail: string)
    | RateLimited(detail: string)
    | Timeout(detail: string)
    | InvalidParams(detail: string)
    | Protocol(detail: string)
    | Internal(detail: string)

  datatype Result<T> = Ok(value: T) | Err(error: Error)

  datatype Option<T> = None | Some(value: T)
}
