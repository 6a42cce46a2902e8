/** The template factory (DynamicRedisTemplateFactory), abstracted to
    what the router relies on: `createRedisTemplate(database)` builds a
    template whose connection is bound to exactly that database. The
    serializer settings it also applies are not modelled. */
module TemplateFactory {
  import opened Common
  import opened Properties
  import opened ConnectionConfiguration
  import opened LettuceConfigure

  /** A `RedisTemplate` and the connection factory behind it. */
  datatype Template = RedisTemplate(connectionFactory: LettuceConnectionFactory) {
    /** The database every operation through this template reaches. */
    function Database(): (database: int) { connectionFactory.standalone.database }
  }

  /** A factory whose successful templates are bound to the database asked for. */
  type BoundFactory = f: int -> Result<Template> | forall database :: f(database).Success? ==> f(database).value.Database() == database
    witness (database: int) => Failure(NullLettuceSection)

  /** `createRedisTemplate(database)`: a new `LettuceConnectionConfigure`
      for that database, its connection factory, and a template over it. */
  function CreateRedisTemplate(props: RedisProperties, builderCustomizers: Option<seq<Customizer>>, database: int)
    : (r: Result<Template>)
    ensures r.Success? ==> r.value.Database() == database
    ensures r.Success? ==>
      Success(r.value.connectionFactory) == RedisConnectionFactory(NewLettuceConnectionConfigure(props, builderCustomizers, database))
    ensures r.Failure? <==> RedisConnectionFactory(NewLettuceConnectionConfigure(props, builderCustomizers, database)).Failure?
  {
    match RedisConnectionFactory(NewLettuceConnectionConfigure(props, builderCustomizers, database))
    case Failure(e) => Failure(e)
    case Success(connectionFactory) => Success(RedisTemplate(connectionFactory))
  }

  /** Templates built for two databases differ in the database only: the
      same server, credentials and client configuration behind each, and
      the same failure for every valid index. A negative index fails. */
  lemma TemplatesDifferInDatabaseOnly(props: RedisProperties, builderCustomizers: Option<seq<Customizer>>, d1: int, d2: int)
    ensures d1 < 0 ==> CreateRedisTemplate(props, builderCustomizers, d1).Failure?
    ensures CreateRedisTemplate(props, builderCustomizers, d1).Success? && d2 >= 0 ==>
      var f1 := CreateRedisTemplate(props, builderCustomizers, d1).value.connectionFactory;
      && CreateRedisTemplate(props, builderCustomizers, d2).Success?
      && CreateRedisTemplate(props, builderCustomizers, d2).value.connectionFactory
        == f1.(standalone := f1.standalone.(database := d2))
    ensures CreateRedisTemplate(props, builderCustomizers, d1).Failure? && d1 >= 0 ==>
      CreateRedisTemplate(props, builderCustomizers, d2) == CreateRedisTemplate(props, builderCustomizers, d1)
  {
    OnlyDatabaseDiffers(props, d1, d2);
  }

  /** The factory the auto-configuration hands to the router. */
  function Factory(props: RedisProperties, builderCustomizers: Option<seq<Customizer>>): (f: BoundFactory)
    ensures forall database :: f(database).Failure? <==>
      RedisConnectionFactory(NewLettuceConnectionConfigure(props, builderCustomizers, database)).Failure?
    ensures forall database :: f(database).Success? ==>
      Success(f(database).value.connectionFactory)
        == RedisConnectionFactory(NewLettuceConnectionConfigure(props, builderCustomizers, database))
  {
    (database: int) => CreateRedisTemplate(props, builderCustomizers, database)
  }
}
