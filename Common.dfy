/** Optional values and results with an error side, used for Python's `None` and raised exceptions. */
module Wrappers {

  datatype Option<+T> = None | Some(value: T)

  datatype Result<+T, +E> = Ok(value: T) | Err(error: E)
}

/** The Python exceptions that can escape the server's message handling. */
module Faults {

  datatype Fault =
    | KeyError(key: string)   // a dictionary lookup `d[key]` on a missing key
    | IndexError              // `parts[2]` on a two-element list
    | ProtocolError           // websockets' WebSocketProtocolError while receiving
    | ConnectionClosed        // the connection failed while receiving
}
