/** Value types shared by the resolver and its configuration: Java's nullable
    references as `Option`, checked exceptions as the error side of `Result`,
    and `java.net.InetAddress` as a plain value. */
module Base {

  /** A Java reference that may be null. */
  datatype Option<+T> = None | Some(value: T)

  /** The exceptions the core raises or passes on. */
  datatype Failure =
    | UnknownHost(message: string)
      /** `RuntimeException` wrapping the `ExecutionException` by which the
          cache reports a failed load. */
    | RuntimeExecution(cause: Failure)
      /** `RuntimeException` raised by a second global initialisation. */
    | Runtime(message: string)

  /** A computation that returns a value or throws. */
  datatype Result<+T> = Ok(value: T) | Err(error: Failure)

  /** Raw address bytes, as returned by `TextToNumeric.convert`. */
  type Bytes = seq<bv8>

  /** A resolved address: the host name it was looked up under (if any) and
      its raw bytes. */
  datatype InetAddress = InetAddress(hostName: Option<string>, address: Bytes)
}
