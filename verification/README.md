# redis-dynamic-switch-db in Dafny

This project models the library's way of sending each Redis operation to one of several logical databases. One "dynamic" template does all the routing, so switching database does not open a new connection each time. The model follows the library's own pieces:

- **Selector stack** (`ThreadLocalHelper`, `selector.dfy`). This is one thread's deque of database numbers, held by class `DbSelector`. `Set` pushes a number on the front and `Get` peeks at the front. `Clear` pops one entry when more than one remains, and otherwise empties the deque. An absent deque and an empty one are the same state. Lemmas prove the stack laws: set-then-get, set-then-clear, nested overrides, and the unwinding of any number of nested scopes.
- **Router** (`DynamicTemplate`, `router.dfy`). Class `DynamicRedisTemplate` holds:
  - a factory that is fixed at construction;
  - a default template;
  - the selector it reads;
  - a cache of templates keyed by database.

  `Resolve` uses the top of the selector as the lookup key:
  - no key gives the default template;
  - a cached key gives its cached template;
  - any other key is built by the factory, cached and returned.

  A ghost invariant ties every built entry to the factory. A ghost log records that each database is built at most once and only on first use.
- **Template factory** (`TemplateFactory`, `factory.dfy`). `createRedisTemplate(database)` is modelled through the connection factory it builds. Every template it returns is bound to the database it was asked for. Templates for two valid (non-negative) databases differ only in the database.
- **Operation façade** (`Helper`, `helper.dfy`). Class `RedisHelper` provides the string get, set and expire operations through the router, over a `Store`. The store is the Redis server: values and recorded expiries by (database, key), with no clock. The `...WithDb` variants push the database, do the work and always clear it, so the selector ends as it began.
- **Wiring** (`AutoConfiguration`, `autoconfig.dfy`). `dynamicRedisHelper` sets the router's default to the injected template. It seeds the cache with one entry, configured database → that same template.
- **URL and endpoint translation** (`ConnectionConfiguration`, `connection.dfy`). This covers `parseUrl` over a simplified `java.net.URI` splitter, the `ConnectionInfo` getters and `getStandaloneConfig`. Module `ConnectionUrlLemmas` proves that a `redis`/`rediss` URL written from its parts parses back to them. It also works concrete examples.
- **Client option translation** (`LettuceConfigure`, `lettuce.dfy`). The Lettuce client configuration builder is a record threaded through functions:
  - pooled or plain builder;
  - pool limits;
  - SSL, command timeout, shutdown timeout and client name;
  - the SSL flag from a `rediss` URL;
  - user customizers run last, in list order. `Customize` is the loop over them.

`Common` holds `Option`, `Result` and the error kinds. `StringUtil` holds `StringUtils.hasText`, `Character.isWhitespace` and `String.indexOf`. `Properties` is the `RedisProperties` record that `MyRedisProperties` carries.

Some values are handled in a fixed way throughout:
- Java `null` is `None`.
- A thrown exception is a `Failure`:
  - `RedisUrlSyntaxException` is `InvalidUrl` or `MalformedUrl`;
  - the `NullPointerException` for a missing `lettuce` section is `NullLettuceSection`;
  - the `IllegalArgumentException` of a refused host name, port or database is `InvalidHostName`, `InvalidPort` or `InvalidDatabase`.
- Durations are optional integer milliseconds.

## Model

| member | source | states |
|---|---|---|
| ThreadLocalHelper.DbSelector.constructor | src/main/java/com/yebuxiu/helper/RedisDatabaseThreadLocalHelper.java:13-14 | a thread starts with no deque (empty) |
| ThreadLocalHelper.DbSelector.Set | src/main/java/com/yebuxiu/helper/RedisDatabaseThreadLocalHelper.java:21-28 | the deque becomes `db` in front of the old deque, creating it when absent |
| ThreadLocalHelper.DbSelector.Get | src/main/java/com/yebuxiu/helper/RedisDatabaseThreadLocalHelper.java:33-39 | null exactly when the deque is absent or empty, otherwise its front; the deque is not changed |
| ThreadLocalHelper.DbSelector.Clear | src/main/java/com/yebuxiu/helper/RedisDatabaseThreadLocalHelper.java:44-52 | with at most one entry the deque is dropped, otherwise only its front is removed |
| ThreadLocalHelper.SetThenGet | src/main/java/com/yebuxiu/helper/RedisDatabaseThreadLocalHelper.java:21-39 | after `set(d)`, `get()` is `d` whatever was on the stack |
| ThreadLocalHelper.SetKeepsEntries | src/main/java/com/yebuxiu/helper/RedisDatabaseThreadLocalHelper.java:22-27 | `set` grows the deque by one at the front and keeps every old entry in order |
| ThreadLocalHelper.ClearLastEntry | src/main/java/com/yebuxiu/helper/RedisDatabaseThreadLocalHelper.java:45-49 | `clear` on zero or one entry leaves nothing, so `get` is null |
| ThreadLocalHelper.ClearNested | src/main/java/com/yebuxiu/helper/RedisDatabaseThreadLocalHelper.java:50-51 | `clear` on two or more entries removes the front only, exposing the next |
| ThreadLocalHelper.SetThenClear | src/main/java/com/yebuxiu/helper/RedisDatabaseThreadLocalHelper.java:21-52 | `set(x)` then `clear()` restores the previous deque, absent counting as empty |
| ThreadLocalHelper.NestedOverrideRestored | src/main/java/com/yebuxiu/helper/RedisDatabaseThreadLocalHelper.java:21-52 | `set(a); set(b); clear(); get()` is `a` |
| ThreadLocalHelper.NestedScopesRestore | src/main/java/com/yebuxiu/helper/RedisDatabaseThreadLocalHelper.java:21-52 | n pushes followed by n clears restore the deque from before them |
| DynamicTemplate.DynamicRedisTemplate.constructor | src/main/java/com/yebuxiu/template/DynamicRedisTemplate.java:15-19 | the factory is fixed once; default, cache and selector are installed; nothing built yet |
| DynamicTemplate.DynamicRedisTemplate.DetermineCurrentLookupKey | src/main/java/com/yebuxiu/template/DynamicRedisTemplate.java:22-24 | the lookup key is the top of the selector stack, null when it is empty; the stack is only read |
| DynamicTemplate.DynamicRedisTemplate.CreateRedisTemplateOnMissing | src/main/java/com/yebuxiu/template/DynamicRedisTemplate.java:33-35 | a built template is bound to exactly the lookup key as database |
| DynamicTemplate.DynamicRedisTemplate.Lookup | src/main/java/com/yebuxiu/config/EnhanceDataRedisAutoConfiguration.java:86-97 | null key → default; a seeded key → its seeded template; any other success is bound to its key |
| DynamicTemplate.DynamicRedisTemplate.Resolve | src/main/java/com/yebuxiu/config/EnhanceDataRedisAutoConfiguration.java:86-89 | answers the lookup for the stack top; a successful miss adds exactly that entry to the cache and logs one build; a hit, the default or a failed build leaves cache and log unchanged; after success the same key hits |
| TemplateFactory.CreateRedisTemplate | src/main/java/com/yebuxiu/config/DynamicRedisTemplateFactory.java:50-60 | a template bound to the requested database; fails exactly when its connection factory fails |
| TemplateFactory.TemplatesDifferInDatabaseOnly | src/main/java/com/yebuxiu/config/DynamicRedisTemplateFactory.java:50-60 | a negative database fails; a template built for one database is built for every other valid one with the same server, credentials and client configuration; a failure for a valid database is the same failure for all |
| TemplateFactory.Factory | src/main/java/com/yebuxiu/config/EnhanceDataRedisAutoConfiguration.java:82-84 | the factory handed to the router fails for a database exactly when that database's connection factory fails, and otherwise wraps exactly that connection factory |
| AutoConfiguration.DynamicRedisHelper | src/main/java/com/yebuxiu/config/EnhanceDataRedisAutoConfiguration.java:77-102 | one router over the factory; default is the injected template; cache holds exactly configured db → that template; nothing built; the configured db and no db both resolve to it without a miss |
| Helper.UnitOrSeconds | src/main/java/com/yebuxiu/helper/RedisHelper.java:77 | a null time unit means seconds, a given one is kept |
| Helper.Store.Set | src/main/java/com/yebuxiu/helper/RedisHelper.java:75 | the value is stored under (database, key) and a previous expiry of that entry is discarded |
| Helper.Store.Get | src/main/java/com/yebuxiu/helper/RedisHelper.java:87 | the stored value, or null for a missing key |
| Helper.Store.Expire | src/main/java/com/yebuxiu/helper/RedisHelper.java:98 | true exactly when the key exists; then a positive timeout is recorded with its unit and a non-positive one deletes the key; an absent key changes nothing |
| Helper.StrSetReadBack | src/main/java/com/yebuxiu/helper/RedisHelper.java:74-79 | after `strSet` the entry holds the value exactly when `expire` is `NOT_EXPIRE` or positive; every other entry keeps its value |
| Helper.RedisHelper.constructor | src/main/java/com/yebuxiu/helper/RedisHelper.java:23-25 | the helper keeps the one dynamic template it is given |
| Helper.RedisHelper.SetCurrentDatabase | src/main/java/com/yebuxiu/helper/RedisHelper.java:52-56 | exactly a push onto the selector stack |
| Helper.RedisHelper.ClearCurrentDatabase | src/main/java/com/yebuxiu/helper/RedisHelper.java:61-64 | exactly a `clear` of the selector stack |
| Helper.RedisHelper.SetExpire | src/main/java/com/yebuxiu/helper/RedisHelper.java:97-99 | the expiry goes to the routed template's database, in seconds when no unit is given, answering whether the key existed; the router resolves once, so at most one template is built; a failed resolve changes neither store nor cache |
| Helper.RedisHelper.StrSet | src/main/java/com/yebuxiu/helper/RedisHelper.java:74-79 | always writes the value; sets an expiry iff `expire != -1`, so 0 and other negatives delete the key; write and expiry reach the same routed database; the cache gains at most the routed key, built once |
| Helper.RedisHelper.StrGet | src/main/java/com/yebuxiu/helper/RedisHelper.java:86-88 | the value under the routed template's database, or null; the cache gains at most the routed key, built once; the store is untouched |
| Helper.RedisHelper.StrSetWithDb | src/main/java/com/yebuxiu/helper/RedisHelper.java:101-108 | `strSet` routed for `db`; the selector stack ends as it began, also on failure; on success `db`'s template is cached, built at most once; with bound seeded templates only (db, key) changes |
| Helper.RedisHelper.StrGetWithDb | src/main/java/com/yebuxiu/helper/RedisHelper.java:110-117 | `strGet` routed for `db`; the selector stack ends as it began, also on failure; on success `db`'s template is cached, built at most once |
| Helper.RedisHelper.SetThenGetWithDb | src/main/java/com/yebuxiu/helper/RedisHelper.java:101-117 | `strGetWithDb` after `strSetWithDb` on the same db and key reads the value when no expiry or a positive one was set, and null after a non-positive one; a failed write means a failed read; `db`'s template is built at most once across both |
| StringUtil.IndexOfAny | src/main/java/com/yebuxiu/config/RedisConnectionConfiguration.java:83 | the first index holding one of the characters, -1 when there is none |
| StringUtil.IndexOfAnySkip | src/main/java/com/yebuxiu/config/RedisConnectionConfiguration.java:83-85 | a prefix free of the characters shifts the found index by its length |
| ConnectionConfiguration.PasswordOf | src/main/java/com/yebuxiu/config/RedisConnectionConfiguration.java:80-89 | null without user info; the whole user info without `:`; otherwise the text after the first `:` |
| ConnectionConfiguration.ParseUrl | src/main/java/com/yebuxiu/config/RedisConnectionConfiguration.java:71-95 | a URL the splitter refuses is malformed, with or without a scheme (`//`, a bracketed authority); success iff scheme is `redis`/`rediss`, else invalid; SSL iff `rediss`; the password from the user info |
| ConnectionConfiguration.ConnectionInfoGetters | src/main/java/com/yebuxiu/config/RedisConnectionConfiguration.java:100-128 | for a parsed URL, `isUseSsl` is true exactly for `rediss`, `getHostName` and `getPort` are the URI's host and port, `getPassword` the password from its user info |
| ConnectionConfiguration.Configured | src/main/java/com/yebuxiu/config/RedisConnectionConfiguration.java:49-57 | the setters succeed iff the host name has text, the port is in 1-65535 and the database is not negative; otherwise the first refused argument is the error |
| ConnectionConfiguration.GetStandaloneConfig | src/main/java/com/yebuxiu/config/RedisConnectionConfiguration.java:44-60 | host, port, password from the URL when it has text (failing as it fails), else from the separate properties, passed through the setters' checks; a success has a host name with text, a TCP port and the constructor's non-negative database |
| ConnectionConfiguration.UrlOverridesProperties | src/main/java/com/yebuxiu/config/RedisConnectionConfiguration.java:47-51 | with a URL that has text, the separate host, port and password are ignored |
| ConnectionConfiguration.OnlyDatabaseDiffers | src/main/java/com/yebuxiu/config/RedisConnectionConfiguration.java:35-58 | a negative database fails; otherwise configurations for two databases agree on success, error and everything but the database |
| ConnectionUrlLemmas.ParseRenderedUrl | src/main/java/com/yebuxiu/config/RedisConnectionConfiguration.java:71-95 | `scheme://[userinfo@]host:port` for `redis`/`rediss`, with a host name or IPv4 host, an in-range port and escape-free user info, parses back to its parts, SSL exactly for `rediss` |
| ConnectionUrlLemmas.RenderedUrlGetters | src/main/java/com/yebuxiu/config/RedisConnectionConfiguration.java:112-126 | the `ConnectionInfo` getters of such a URL give back its host, port and password, and SSL exactly for `rediss` |
| ConnectionUrlLemmas.OtherSchemeRejected | src/main/java/com/yebuxiu/config/RedisConnectionConfiguration.java:74-78 | every other well-formed scheme is an invalid Redis URL |
| ConnectionUrlLemmas.PasswordAfterFirstColon | src/main/java/com/yebuxiu/config/RedisConnectionConfiguration.java:82-85 | the user part before the first `:` is dropped; later colons stay in the password |
| ConnectionUrlLemmas.FtpUrlRejected | src/main/java/com/yebuxiu/config/RedisConnectionConfiguration.java:75-77 | `ftp://host:6379` is an invalid Redis URL |
| ConnectionUrlLemmas.SecretPasswordUrl | src/main/java/com/yebuxiu/config/RedisConnectionConfiguration.java:79-90 | `redis://:secret@host:6379` gives host `host`, port 6379, password `secret`, no SSL |
| ConnectionUrlLemmas.ColonInPassword | src/main/java/com/yebuxiu/config/RedisConnectionConfiguration.java:82-85 | user info `u:p:q` gives the password `p:q` |
| ConnectionUrlLemmas.EmptyAuthorityMalformed | src/main/java/com/yebuxiu/config/RedisConnectionConfiguration.java:72-93 | `redis://` has no authority after `//`, so it is a malformed URL |
| ConnectionUrlLemmas.UnderscoreHostRegistry | src/main/java/com/yebuxiu/config/RedisConnectionConfiguration.java:72-90 | `redis://my_host:6379` is accepted, but `_` is no host name character, so host, port and password are null and -1 |
| ConnectionUrlLemmas.UnderscoreHostRefused | src/main/java/com/yebuxiu/config/RedisConnectionConfiguration.java:47-49 | with that URL the null host name is refused, so no standalone configuration is built |
| ConnectionUrlLemmas.FragmentOnlyMalformed | src/main/java/com/yebuxiu/config/RedisConnectionConfiguration.java:72-93 | `redis:#x` has an empty scheme-specific part, so it is a malformed URL |
| ConnectionUrlLemmas.SchemelessRejected | src/main/java/com/yebuxiu/config/RedisConnectionConfiguration.java:72-78 | a reference without a scheme that parses is an invalid Redis URL |
| ConnectionUrlLemmas.SchemelessEmptyAuthorityMalformed | src/main/java/com/yebuxiu/config/RedisConnectionConfiguration.java:72-93 | `//` alone expects an authority, so it is a malformed URL |
| ConnectionUrlLemmas.SchemelessBracketMalformed | src/main/java/com/yebuxiu/config/RedisConnectionConfiguration.java:72-93 | `//a[b:1` has a `[` in an authority that is no server, so it is a malformed URL |
| ConnectionUrlLemmas.BracketAuthorityMalformed | src/main/java/com/yebuxiu/config/RedisConnectionConfiguration.java:72-93 | `redis://a[b:1` has a `[` in an authority that is no server, so it is a malformed URL |
| ConnectionUrlLemmas.LoopbackUrl | src/main/java/com/yebuxiu/config/RedisConnectionConfiguration.java:72-90 | `redis://127.0.0.1:6379` names the IPv4 host `127.0.0.1`, port 6379, no password |
| LettuceConfigure.NewLettuceConnectionConfigure | src/main/java/com/yebuxiu/config/LettuceConnectionConfigure.java:43-52 | a null customizer list becomes an empty one; properties and database are kept |
| LettuceConfigure.GetPoolConfig | src/main/java/com/yebuxiu/config/LettuceConnectionConfigure.java:154-166 | limits copied verbatim; eviction interval and max wait set in milliseconds only when present, else the pool defaults of -1 ms |
| LettuceConfigure.CreateBuilder | src/main/java/com/yebuxiu/config/LettuceConnectionConfigure.java:102-107 | plain builder without pool properties, pooling builder with their pool config otherwise |
| LettuceConfigure.ApplyProperties | src/main/java/com/yebuxiu/config/LettuceConnectionConfigure.java:109-127 | SSL when `ssl`; command timeout when given; shutdown timeout when the lettuce section has a non-zero one; client name when it has text; all else kept |
| LettuceConfigure.CustomizeConfigurationFromUrl | src/main/java/com/yebuxiu/config/LettuceConnectionConfigure.java:138-143 | SSL added when the URL's scheme is `rediss`; a bad URL fails with its parse error |
| LettuceConfigure.BuiltInConfiguration | src/main/java/com/yebuxiu/config/LettuceConnectionConfigure.java:78-83 | fails iff the URL has text and does not parse; SSL iff `ssl` or a `rediss` URL; each other option as its rule says |
| LettuceConfigure.ApplyAllAppend | src/main/java/com/yebuxiu/config/LettuceConnectionConfigure.java:93-97 | running two customizer lists in turn is running their concatenation |
| LettuceConfigure.Customize | src/main/java/com/yebuxiu/config/LettuceConnectionConfigure.java:93-97 | each customizer in list order, first to last |
| LettuceConfigure.GetLettuceClientConfiguration | src/main/java/com/yebuxiu/config/LettuceConnectionConfigure.java:78-88 | builder, properties, URL, then customizers: the built-in settings with the customizers applied after them |
| LettuceConfigure.CustomizersRunLast | src/main/java/com/yebuxiu/config/LettuceConnectionConfigure.java:84-87 | with no customizers the built-in settings stand; otherwise the last customizer has the last word |
| LettuceConfigure.RedisConnectionFactory | src/main/java/com/yebuxiu/config/LettuceConnectionConfigure.java:57-73 | a null lettuce section fails; otherwise it succeeds exactly when both configurations do; the standalone configuration is `getStandaloneConfig` for the configured database and the client is the client configuration |

## Left out

- Per-thread isolation. `ThreadLocal` and concurrent first use of a database are left out. One thread's stack and sequential cache updates are modelled.
- `AbstractRoutingRedisTemplate` is not part of this model. `Resolve` and `Lookup` follow only the hooks `DynamicRedisTemplate` overrides (`determineCurrentLookupKey`, `createRedisTemplateOnMissing`) and the comments in `dynamicRedisHelper`: a null key gives the default, a cached key gives its entry, and any other key is built, inserted and returned. A failed build is taken to leave the cache unchanged.
- `DynamicTemplate.DynamicRedisTemplate.Lookup`: the seeded default template is not assumed to be bound to the configured database. `spring.redis.database` and `redis.redis-properties.database` are separate settings. Database-exact statements about seeded entries therefore require `SeededBound`.
- The serializer settings of `buildRedisTemplate` and of the factory's template are left out: no serialization is modelled, and keys and values are strings.
- Spring bean wiring is left out: annotations, `ObjectProvider` lookup and the `redisTemplate` bean. The result of `builderCustomizers.getIfAvailable()` is a parameter.
- Lettuce and Netty resources are left out because they are foreign objects with I/O: `DefaultClientResources.create()`, `createClientOptions` with `TimeoutOptions`, and `afterPropertiesSet()`. `LettuceConnectionFactory` is just the record of its two configurations.
- `ConnectionConfiguration.SplitUri` is a simplified `java.net.URI` of the shape `scheme:[//[userinfo@]host[:port]][/?#...]`. These parts follow the JDK parser:
  - illegal characters, a bad scheme, an empty scheme-specific part (nothing, or `#` straight after the `:`) and a `//` with nothing after it are malformed, with or without a scheme;
  - an authority holding `[` or `]` is malformed, with or without a scheme, since it is no registry name and no server authority of this model;
  - a server host is a host name (dotted labels, the rightmost starting with a letter when there are several) or an IPv4 address;
  - user info holds only user-info characters, and the port fits an `int`;
  - any other authority is registry-based, with no user info, host or port.
- `ConnectionConfiguration.SplitUri` leaves out IPv6 literals: a bracketed host such as `[::1]` is read as malformed where Java accepts it.
- `ConnectionConfiguration.SplitUri` leaves out `%` escapes. They are neither checked nor decoded, so `%zz` is accepted where Java reports a malformed URL. User info `%40` stays as it is where `getUserInfo()` decodes it to `@`. The round-trip lemmas therefore require escape-free components.
- `ConnectionConfiguration.SplitUri` does not check characters Java refuses outside the authority, such as `[` in a path.
- `RedisPassword.of` is a library call. The password is kept as the optional string it is built from.
- `ConnectionConfiguration.Configured` takes the argument checks of `setHostName`, `setPort` and `setDatabase` from Spring Data Redis's `RedisStandaloneConfiguration`, which is not part of this model. Their exception messages are left out.
- `getRedisTemplate` and `getRedisTemplates` are plain accessors: the template is the `redisTemplate` field and the map is its `redisTemplates` field.
- The `afterPropertiesSet` not-null assertion is left out because the field cannot be null in the model.
- The Redis protocol, the network and TTL timing are left out. The store records a positive expiry with its unit but keeps no clock, so such a key never lapses.
- A non-positive timeout deletes the key at once (`Helper.ExpiresAtOnce`). This follows the Redis server and the template's millisecond conversion, which turns any positive timeout into at least 1 ms. Neither is code of this repository: the first is Redis's EXPIRE/PEXPIRE, the second Spring Data Redis's `TimeoutUtils`.
- `TestEnhanceDataRedisController` is an HTTP endpoint. Its set-then-get use is `SetThenGetWithDb`.
- Duration conversions (`toMillis`, `isZero`) are taken as exact on integer milliseconds.
