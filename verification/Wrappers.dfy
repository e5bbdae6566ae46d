/** Types shared by every module. */
module Wrappers {
  datatype Option<+T> = None | Some(value: T)

  datatype Result<+T, +E> = Success(value: T) | Failure(error: E)

  /** A publish to Kafka is acknowledged, lost, or stored although the producer saw an error. */
  datatype Ack = Acked | Lost | StoredUnacked

  /** A request works, fails without effect, or is carried out and still reports an error. */
  datatype Fault = Works | Fails | FailsAfter
}
