/** The errors the chain walker and the single-hop resolver can report. */
module Errors {

  datatype Error =
    /** chain.New: the X-Forwarded-Host header names no registered unwrapper. */
    | NoUnwrapperFound
    /** chain.Next: the current URL was already queried. */
    | CycleDetected
    /** unwrap.Do: the response has no Location header. */
    | NoLocationHeader
    /** unwrap.Do: the Location header is present but holds no value. */
    | LocationHeaderEmpty
    /** unwrap.Do: the first Location value is not a URL. */
    | LocationParseFailed
    /** unwrap.Do: the HEAD request itself failed; `cause` is the transport's own error. */
    | Transport(cause: string)
}
