/** The execution states shared by providers, servers and clients. */
module States {
  datatype ExecutionState =
    | Error | Halt | Halting | Initializing | Listening | Retrying | Running | Starting | Stopping | Stopped
}
