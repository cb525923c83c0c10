/** Option and Result, and the errors the modelled operations return. */
module Results {

  datatype Option<+T> = None | Some(value: T)

  datatype Error =
    | MissingWorkflowId
    | MissingTaskName
    | MissingTaskId
    | MissingState
    | MissingNodeId
    | TaskNotFound
    | InvalidFromState
    | InvalidToState
    | InvalidTransition
    | NotDispatched
    | NoPartitions
    | InvalidPartition
    | NoOwner
    | NodeExists
    | NodeNotFound
    | StorageFailed
    | CheckpointBeyondLatest
    | NotConnected

  datatype Result<+T> = Success(value: T) | Failure(error: Error)

  /** A Go string and a Go []byte are both byte sequences, so one type models both. */
  type Bytes = string
}
