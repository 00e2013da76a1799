/** Small result types shared by the controllers' models. */
module Wrappers {

  /** A value that may be absent: what FirstOrDefault returns, or a reference that may be null. */
  datatype Option<+T> = None | Some(value: T)

  /** What a controller action answers: a body (200 OK; with the unit value, 204 NoContent) or 404 NotFound. */
  datatype Response<+T> = Ok(value: T) | NotFound
}
