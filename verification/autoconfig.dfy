/** The wiring of the default dynamic helper (`dynamicRedisHelper`): a
    factory over the configured properties, a router whose default and
    only cached template is the injected one, and a helper over it. */
module AutoConfiguration {
  import opened Common
  import opened Properties
  import opened LettuceConfigure
  import opened TemplateFactory
  import opened ThreadLocalHelper
  import opened DynamicTemplate
  import opened Helper

  /** `builderCustomizers` is `None` when no customizer bean is available;
      `slot` is the per-thread selector and `server` the Redis server. */
  method DynamicRedisHelper(redisTemplate: Template, props: RedisProperties,
                            builderCustomizers: Option<seq<Customizer>>,
                            slot: DbSelector, server: Store)
    returns (helper: RedisHelper)
    ensures fresh(helper) && fresh(helper.redisTemplate)
    ensures helper.Valid()
    ensures helper.store == server && helper.redisTemplate.selector == slot
    ensures helper.redisTemplate.dynamicRedisTemplateFactory == Factory(props, builderCustomizers)
    ensures helper.redisTemplate.defaultRedisTemplate == redisTemplate
    ensures helper.redisTemplate.redisTemplates == map[props.database := redisTemplate]
    ensures helper.redisTemplate.built == []
    // with nothing selected, or the configured database selected, the
    // injected template serves and nothing is built
    ensures helper.redisTemplate.Lookup(None) == Success(redisTemplate)
    ensures helper.redisTemplate.Lookup(Some(props.database)) == Success(redisTemplate)
    ensures !helper.redisTemplate.Misses(Some(props.database))
  {
    var factory := Factory(props, builderCustomizers);
    var templates := map[props.database := redisTemplate];
    var router := new DynamicRedisTemplate(factory, redisTemplate, templates, slot);
    helper := new RedisHelper(router, server);
  }
}
