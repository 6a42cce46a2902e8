/** Value wrappers shared by every module: an optional value (Java's
    nullable references) and a result that is either a value or the
    exception the Java code would throw. */
module Common {

  /** `None` stands for Java's `null`. */
  datatype Option<+T> = None | Some(value: T)

  /** `Failure` stands for an exception propagating out of the call. */
  datatype Result<+T> = Success(value: T) | Failure(error: Error)

  /** The exceptions the modelled code can raise. */
  datatype Error =
    | InvalidUrl(url: string)     // RedisUrlSyntaxException: scheme is neither redis nor rediss
    | MalformedUrl(url: string)   // RedisUrlSyntaxException wrapping a URISyntaxException
    | NullLettuceSection          // NullPointerException from getLettuce().getPool()
    | InvalidHostName(hostName: Option<string>)  // IllegalArgumentException: null or blank host name
    | InvalidPort(port: int)      // IllegalArgumentException: port outside 1-65535
    | InvalidDatabase(database: int)  // IllegalArgumentException: negative database index
}
