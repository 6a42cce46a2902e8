/** Client option translation (LettuceConnectionConfigure): a properties
    record becomes a Lettuce client configuration, step by step on a
    builder, with the user's customizers applied last. The builder and the
    configuration it builds are the same record here; `None` in a duration
    field means the library's default was left in place. */
module LettuceConfigure {
  import opened Common
  import opened StringUtil
  import opened Properties
  import opened ConnectionConfiguration

  /** The fields of commons-pool2's `GenericObjectPoolConfig` that are set. */
  datatype PoolConfig = PoolConfig(
    maxTotal: int,
    maxIdle: int,
    minIdle: int,
    timeBetweenEvictionRunsMillis: int,
    maxWaitMillis: int)

  /** A fresh `GenericObjectPoolConfig`: 8 connections in all, 8 idle at
      most, none idle at least, no evictor run (-1 ms) and an unbounded
      wait (-1 ms). */
  const DefaultPoolConfig := PoolConfig(8, 8, 0, -1, -1)

  /** A `LettuceClientConfiguration` (or its builder): the pool when the
      builder is a pooling one, and the options the code sets. */
  datatype ClientConfiguration = ClientConfiguration(
    pool: Option<PoolConfig>,
    useSsl: bool,
    commandTimeout: Option<int>,
    shutdownTimeout: Option<int>,
    clientName: Option<string>)

  /** `LettuceClientConfiguration.builder()`: not pooling, nothing set. */
  const PlainBuilder := ClientConfiguration(None, false, None, None, None)

  /** A `LettuceClientConfigurationBuilderCustomizer`: whatever it does to the builder. */
  type Customizer = ClientConfiguration -> ClientConfiguration

  /** The fields a `LettuceConnectionConfigure` is constructed with. */
  datatype LettuceConnectionConfigure = LettuceConnectionConfigure(
    properties: RedisProperties,
    builderCustomizers: seq<Customizer>,
    database: int)

  /** The constructor: a null customizer list is taken as an empty one. */
  function NewLettuceConnectionConfigure(props: RedisProperties, builderCustomizers: Option<seq<Customizer>>, database: int)
    : (c: LettuceConnectionConfigure)
    ensures c.properties == props && c.database == database
    ensures builderCustomizers.None? ==> c.builderCustomizers == []
    ensures builderCustomizers.Some? ==> c.builderCustomizers == builderCustomizers.value
  {
    LettuceConnectionConfigure(props, if builderCustomizers.Some? then builderCustomizers.value else [], database)
  }

  /** `PoolBuilderFactory.getPoolConfig`: the three limits verbatim; the
      eviction interval and the maximum wait only when given. */
  function GetPoolConfig(p: Pool): (c: PoolConfig)
    ensures c.maxTotal == p.maxActive && c.maxIdle == p.maxIdle && c.minIdle == p.minIdle
    ensures p.timeBetweenEvictionRuns.Some? ==> c.timeBetweenEvictionRunsMillis == p.timeBetweenEvictionRuns.value
    ensures p.timeBetweenEvictionRuns.None? ==>
      c.timeBetweenEvictionRunsMillis == DefaultPoolConfig.timeBetweenEvictionRunsMillis
    ensures p.maxWait.Some? ==> c.maxWaitMillis == p.maxWait.value
    ensures p.maxWait.None? ==> c.maxWaitMillis == DefaultPoolConfig.maxWaitMillis
  {
    var c := DefaultPoolConfig.(maxTotal := p.maxActive);
    var c := c.(maxIdle := p.maxIdle);
    var c := c.(minIdle := p.minIdle);
    var c := if p.timeBetweenEvictionRuns.Some? then c.(timeBetweenEvictionRunsMillis := p.timeBetweenEvictionRuns.value) else c;
    if p.maxWait.Some? then c.(maxWaitMillis := p.maxWait.value) else c
  }

  /** `createBuilder`: a plain builder without pool properties, a pooling
      one carrying their pool config otherwise; nothing else is set yet. */
  function CreateBuilder(pool: Option<Pool>): (b: ClientConfiguration)
    ensures b.pool.Some? <==> pool.Some?
    ensures pool.Some? ==> b.pool.value == GetPoolConfig(pool.value)
    ensures b.(pool := None) == PlainBuilder
  {
    if pool.None? then PlainBuilder
    else PlainBuilder.(pool := Some(GetPoolConfig(pool.value)))
  }

  /** Whether `applyProperties` sets the shutdown timeout: the lettuce
      section exists and its shutdown timeout is neither null nor zero. */
  predicate ShutdownTimeoutSet(props: RedisProperties) {
    props.lettuce.Some? && props.lettuce.value.shutdownTimeout.Some?
    && props.lettuce.value.shutdownTimeout.value != 0
  }

  /** `applyProperties`: SSL when asked for, the command timeout when
      given, the shutdown timeout when set and non-zero, the client name
      when it has text; the pool is left alone. */
  function ApplyProperties(b: ClientConfiguration, props: RedisProperties): (r: ClientConfiguration)
    ensures r.pool == b.pool
    ensures r.useSsl <==> b.useSsl || props.ssl
    ensures props.timeout.Some? ==> r.commandTimeout == props.timeout
    ensures props.timeout.None? ==> r.commandTimeout == b.commandTimeout
    ensures ShutdownTimeoutSet(props) ==> r.shutdownTimeout == props.lettuce.value.shutdownTimeout
    ensures !ShutdownTimeoutSet(props) ==> r.shutdownTimeout == b.shutdownTimeout
    ensures HasText(props.clientName) ==> r.clientName == props.clientName
    ensures !HasText(props.clientName) ==> r.clientName == b.clientName
  {
    var b := if props.ssl then b.(useSsl := true) else b;
    var b := if props.timeout.Some? then b.(commandTimeout := props.timeout) else b;
    var b :=
      if props.lettuce.Some? then
        var lettuce := props.lettuce.value;
        if lettuce.shutdownTimeout.Some? && lettuce.shutdownTimeout.value != 0
        then b.(shutdownTimeout := lettuce.shutdownTimeout) else b
      else b;
    if HasText(props.clientName) then b.(clientName := props.clientName) else b
  }

  /** `customizeConfigurationFromUrl`: SSL when the URL's scheme is `rediss`;
      an invalid URL propagates its exception. */
  function CustomizeConfigurationFromUrl(b: ClientConfiguration, url: string): (r: Result<ClientConfiguration>)
    ensures r.Failure? <==> ParseUrl(url).Failure?
    ensures r.Failure? ==> r.error == ParseUrl(url).error
    ensures r.Success? ==> r.value == b.(useSsl := b.useSsl || SplitUri(url).value.scheme == Some("rediss"))
  {
    match ParseUrl(url)
    case Failure(e) => Failure(e)
    case Success(info) => Success(if info.IsUseSsl() then b.(useSsl := true) else b)
  }

  /** The configuration `getLettuceClientConfiguration` has built when it
      reaches `customize`: builder, properties, then the URL if it has text. */
  function BuiltInConfiguration(props: RedisProperties, pool: Option<Pool>): (r: Result<ClientConfiguration>)
    ensures r.Failure? <==> HasText(props.url) && ParseUrl(props.url.value).Failure?
    ensures r.Failure? ==> r.error == ParseUrl(props.url.value).error
    ensures r.Success? ==>
      && (r.value.pool.Some? <==> pool.Some?)
      && (pool.Some? ==> r.value.pool.value == GetPoolConfig(pool.value))
      && (r.value.useSsl <==> props.ssl || (HasText(props.url) && SplitUri(props.url.value).value.scheme == Some("rediss")))
      && r.value.commandTimeout == props.timeout
      && r.value.shutdownTimeout == (if ShutdownTimeoutSet(props) then props.lettuce.value.shutdownTimeout else None)
      && r.value.clientName == (if HasText(props.clientName) then props.clientName else None)
  {
    var b := ApplyProperties(CreateBuilder(pool), props);
    if HasText(props.url) then CustomizeConfigurationFromUrl(b, props.url.value) else Success(b)
  }

  /** The builder after the customizers, run first to last. */
  function ApplyAll(cs: seq<Customizer>, b: ClientConfiguration): (customized: ClientConfiguration)
    decreases |cs|
  {
    if cs == [] then b else cs[|cs| - 1](ApplyAll(cs[..|cs| - 1], b))
  }

  /** Running two lists of customizers one after the other is running
      their concatenation: the list order is the application order. */
  lemma {:induction false} ApplyAllAppend(c1: seq<Customizer>, c2: seq<Customizer>, b: ClientConfiguration)
    ensures ApplyAll(c1 + c2, b) == ApplyAll(c2, ApplyAll(c1, b))
    decreases |c2|
  {
    if c2 == [] {
      assert c1 + c2 == c1;
    } else {
      var init := c2[..|c2| - 1];
      assert (c1 + c2)[..|c1 + c2| - 1] == c1 + init;
      ApplyAllAppend(c1, init, b);
    }
  }

  /** `customize`: each customizer in turn, in list order. */
  method Customize(cs: seq<Customizer>, builder: ClientConfiguration) returns (r: ClientConfiguration)
    ensures r == ApplyAll(cs, builder)
  {
    r := builder;
    for i := 0 to |cs|
      invariant r == ApplyAll(cs[..i], builder)
    {
      assert cs[..i + 1][..i] == cs[..i];
      r := cs[i](r);
    }
    assert cs[..|cs|] == cs;
  }

  /** What `getLettuceClientConfiguration` builds: the built-in settings,
      then the customizers. */
  function ClientConfigurationOf(c: LettuceConnectionConfigure, pool: Option<Pool>): (r: Result<ClientConfiguration>) {
    match BuiltInConfiguration(c.properties, pool)
    case Failure(e) => Failure(e)
    case Success(b) => Success(ApplyAll(c.builderCustomizers, b))
  }

  /** `getLettuceClientConfiguration`, step by step on the builder. The
      client options and client resources it also sets are not modelled. */
  method GetLettuceClientConfiguration(c: LettuceConnectionConfigure, pool: Option<Pool>)
    returns (r: Result<ClientConfiguration>)
    ensures r == ClientConfigurationOf(c, pool)
  {
    var builder := CreateBuilder(pool);
    builder := ApplyProperties(builder, c.properties);
    if HasText(c.properties.url) {
      var fromUrl := CustomizeConfigurationFromUrl(builder, c.properties.url.value);
      if fromUrl.Failure? {
        return Failure(fromUrl.error);
      }
      builder := fromUrl.value;
    }
    builder := Customize(c.builderCustomizers, builder);
    r := Success(builder);
  }

  /** The customizers have the last word: with none the built-in settings
      stand, and the last customizer of the list is the last to run. */
  lemma CustomizersRunLast(c: LettuceConnectionConfigure, pool: Option<Pool>)
    ensures c.builderCustomizers == [] ==> ClientConfigurationOf(c, pool) == BuiltInConfiguration(c.properties, pool)
    ensures c.builderCustomizers != [] && BuiltInConfiguration(c.properties, pool).Success? ==>
      var cs := c.builderCustomizers;
      ClientConfigurationOf(c, pool)
        == Success(cs[|cs| - 1](ClientConfigurationOf(c.(builderCustomizers := cs[..|cs| - 1]), pool).value))
  {
  }

  /** `createLettuceConnectionFactory`'s inputs: the standalone
      configuration and the client configuration. */
  datatype LettuceConnectionFactory = LettuceConnectionFactory(standalone: StandaloneConfig, client: ClientConfiguration)

  /** `redisConnectionFactory`: reads the pool from the lettuce section
      (a null section is a `NullPointerException`), builds the client
      configuration, then the standalone configuration. */
  function RedisConnectionFactory(c: LettuceConnectionConfigure): (r: Result<LettuceConnectionFactory>)
    ensures c.properties.lettuce.None? ==> r == Failure(NullLettuceSection)
    ensures r.Success? ==> r.value.standalone.database == c.database
    ensures r.Success? ==> Success(r.value.client) == ClientConfigurationOf(c, c.properties.lettuce.value.pool)
    ensures r.Success? ==> Success(r.value.standalone) == GetStandaloneConfig(c.properties, c.database)
    ensures c.properties.lettuce.Some? ==>
      (r.Success? <==> ClientConfigurationOf(c, c.properties.lettuce.value.pool).Success?
                       && GetStandaloneConfig(c.properties, c.database).Success?)
  {
    match c.properties.lettuce
    case None => Failure(NullLettuceSection)
    case Some(lettuce) =>
      match ClientConfigurationOf(c, lettuce.pool)
      case Failure(e) => Failure(e)
      case Success(client) =>
        match GetStandaloneConfig(c.properties, c.database)
        case Failure(e) => Failure(e)
        case Success(standalone) => Success(LettuceConnectionFactory(standalone, client))
  }
}
