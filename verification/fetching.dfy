/** Results of the screens' awaited collaborators (the latest-reading fetch, the
    historical fetch and the local storage read): either the value the call
    resolved with, or an error the call threw. */
module Fetching {

  datatype Fetch<+T> = Ok(value: T) | Err
}
