/** The subset of Spring Boot's `RedisProperties` (reached through
    `MyRedisProperties.getRedisProperties()`) that the configuration code
    reads. Durations are whole milliseconds; `None` is Java's `null`. */
module Properties {
  import opened Common

  /** `RedisProperties.Pool`. */
  datatype Pool = Pool(
    maxActive: int,
    maxIdle: int,
    minIdle: int,
    timeBetweenEvictionRuns: Option<int>,
    maxWait: Option<int>)

  /** `RedisProperties.Lettuce`. */
  datatype Lettuce = Lettuce(shutdownTimeout: Option<int>, pool: Option<Pool>)

  datatype RedisProperties = RedisProperties(
    database: int,
    url: Option<string>,
    host: Option<string>,
    port: int,
    password: Option<string>,
    ssl: bool,
    timeout: Option<int>,
    clientName: Option<string>,
    lettuce: Option<Lettuce>)
}
