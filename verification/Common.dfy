/** Small shared datatypes. */
module Common {

  datatype Option<+T> = None | Some(value: T)

  datatype Result<+T, +E> = Ok(value: T) | Err(error: E)
}

/** Session confidence, as published by `SessionState`. */
module Session {

  datatype Connection =
    | Disconnected
    | Connecting
    | VerifyingV1
    | ActivatingV2
    | Ready
    | Recovering
    | Uncertain
}
