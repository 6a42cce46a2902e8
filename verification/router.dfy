/** The dynamic router (DynamicRedisTemplate). The lookup key of every
    operation is the top of the calling thread's selector stack; no key
    means the default template; a key already cached yields its template;
    any other key has one built by the factory, cached and returned.
    The map lookup itself lives in a superclass that is not part of this
    model: `Resolve` follows only the hooks DynamicRedisTemplate overrides
    (`determineCurrentLookupKey`, `createRedisTemplateOnMissing`) and the
    comments in `dynamicRedisHelper`. */
module DynamicTemplate {
  import opened Common
  import opened TemplateFactory
  import opened ThreadLocalHelper

  /** No database appears twice. */
  ghost predicate Distinct(s: seq<int>) {
    forall i, j :: 0 <= i < j < |s| ==> s[i] != s[j]
  }

  class DynamicRedisTemplate {
    /** The factory, fixed at construction. */
    const dynamicRedisTemplateFactory: BoundFactory
    /** The template used when no database is selected. */
    const defaultRedisTemplate: Template
    /** The thread-local selector slot of the calling thread. */
    const selector: DbSelector
    /** The cache of templates by database. */
    var redisTemplates: map<int, Template>
    /** The cache as it was handed over at construction. */
    ghost const seeded: map<int, Template>
    /** The databases the factory has built templates for, in order. */
    ghost var built: seq<int>

    /** Every cached template is either a seeded one or the factory's
        template for its key, and the factory built each at most once. */
    ghost predicate Valid()
      reads this
    {
      && seeded.Keys <= redisTemplates.Keys
      && (forall k :: k in seeded ==> redisTemplates[k] == seeded[k])
      && (forall k :: k in redisTemplates && k !in seeded ==> dynamicRedisTemplateFactory(k) == Success(redisTemplates[k]))
      && (forall k :: (k in redisTemplates && k !in seeded) <==> k in built)
      && Distinct(built)
    }

    /** The constructor together with the two setters the configuration
        calls right after it: default template, then the initial cache. */
    constructor (factory: BoundFactory, defaultTemplate: Template, templates: map<int, Template>, slot: DbSelector)
      ensures Valid()
      ensures dynamicRedisTemplateFactory == factory && defaultRedisTemplate == defaultTemplate && selector == slot
      ensures redisTemplates == templates && seeded == templates && built == []
    {
      dynamicRedisTemplateFactory := factory;
      defaultRedisTemplate := defaultTemplate;
      selector := slot;
      redisTemplates := templates;
      seeded := templates;
      built := [];
    }

    /** `determineCurrentLookupKey`: the top of the selector stack, null
        when nothing is selected. The stack is only read. */
    method DetermineCurrentLookupKey() returns (key: Option<int>)
      ensures key.None? <==> selector.deque == []
      ensures key.Some? ==> key.value == selector.deque[0]
    {
      key := selector.Get();
    }

    /** `createRedisTemplateOnMissing`: the factory's template for exactly
        the lookup key, used as the database number. */
    function CreateRedisTemplateOnMissing(lookupKey: int): (r: Result<Template>)
      ensures r.Success? ==> r.value.Database() == lookupKey
    {
      dynamicRedisTemplateFactory(lookupKey)
    }

    /** Every seeded template is bound to the database it is cached under. */
    ghost predicate SeededBound()
      reads this
    {
      forall k :: k in seeded ==> seeded[k].Database() == k
    }

    /** What resolving `key` answers in the current state. */
    function Lookup(key: Option<int>): (r: Result<Template>)
      reads this
      ensures key.None? ==> r == Success(defaultRedisTemplate)
      ensures Valid() && key.Some? && key.value in seeded ==> r == Success(seeded[key.value])
      ensures Valid() && key.Some? && key.value !in seeded && r.Success? ==> r.value.Database() == key.value
      ensures Valid() && SeededBound() && key.Some? && r.Success? ==> r.value.Database() == key.value
    {
      match key
      case None => Success(defaultRedisTemplate)
      case Some(k) => if k in redisTemplates then Success(redisTemplates[k]) else CreateRedisTemplateOnMissing(k)
    }

    /** Whether resolving `key` has to build a template. */
    predicate Misses(key: Option<int>)
      reads this
    {
      key.Some? && key.value !in redisTemplates
    }

    /** The cache and build log after resolving `key` to `r`, starting
        from `cache` and `log`: a successful miss adds exactly that entry
        and logs its database; a hit, the default or a failed build leaves
        both as they were. */
    ghost predicate ResolvedFrom(cache: map<int, Template>, log: seq<int>, key: Option<int>, r: Result<Template>)
      reads this
    {
      if key.Some? && key.value !in cache && r.Success? then
        redisTemplates == cache[key.value := r.value] && built == log + [key.value]
      else
        redisTemplates == cache && built == log
    }

    /** Resolves the template for the current lookup key, building and
        caching it on a miss. A failed build leaves the cache as it was. */
    method Resolve() returns (r: Result<Template>)
      requires Valid()
      modifies this
      ensures Valid()
      ensures r == old(Lookup(Top(selector.deque)))
      ensures ResolvedFrom(old(redisTemplates), old(built), Top(selector.deque), r)
      ensures r.Success? ==> !Misses(Top(selector.deque)) && Lookup(Top(selector.deque)) == r
    {
      var key := DetermineCurrentLookupKey();
      assert key == Top(selector.deque);
      if key.None? {
        return Success(defaultRedisTemplate);
      }
      if key.value in redisTemplates {
        return Success(redisTemplates[key.value]);
      }
      r := CreateRedisTemplateOnMissing(key.value);
      if r.Success? {
        redisTemplates := redisTemplates[key.value := r.value];
        built := built + [key.value];
      }
    }
  }
}
