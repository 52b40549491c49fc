/** Values shared by every component: task identities, task statuses, error codes. */
module Core {

  /** A task id; the runtime only ever compares ids. */
  datatype TaskId = TaskId(text: string)

  datatype TaskStatus = Pending | Running | Completed | Failed

  predicate Terminal(st: TaskStatus) {
    st.Completed? || st.Failed?
  }

  datatype ErrorCode =
    | NotFound
    | HandlerNotFound
    | WorkerUnavailable
    | InvalidRequest
    | InternalError

  datatype Option<+T> = None | Some(value: T)

  datatype Result<+T, +E> = Ok(value: T) | Err(error: E)
}
