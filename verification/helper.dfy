/** The operation façade (RedisHelper): string get/set and expiry through
    the dynamic router, and the `...WithDb` variants that select a database
    around one operation and always unselect it afterwards. The Redis
    server is a map from (database, key) to value plus the expiries
    recorded for those entries; no clock runs. */
module Helper {
  import opened Common
  import opened ThreadLocalHelper
  import opened DynamicTemplate

  /** `java.util.concurrent.TimeUnit`. */
  datatype TimeUnit = Nanoseconds | Microseconds | Milliseconds | Seconds | Minutes | Hours | Days

  /** A recorded time to live, in its unit. */
  datatype Expiry = Expiry(timeout: int, unit: TimeUnit)

  /** `NOT_EXPIRE`: the expiry argument that means "do not set an expiry". */
  const NotExpire: int := -1

  /** The unit an expiry is set in: seconds when none is given. */
  function UnitOrSeconds(timeUnit: Option<TimeUnit>): (unit: TimeUnit)
    ensures timeUnit.None? ==> unit == Seconds
    ensures timeUnit.Some? ==> unit == timeUnit.value
  {
    if timeUnit.None? then Seconds else timeUnit.value
  }

  /** Whether setting an expiry of `timeout` removes the key at once: Redis
      deletes a key whose time to live is set to a non-positive value, and
      the template converts a positive timeout to at least one millisecond. */
  predicate ExpiresAtOnce(timeout: int) {
    timeout <= 0
  }

  /** The values once `strSet` has written `value` under `entry` with
      `expire`: the write, then the deletion a non-positive expiry causes. */
  function ValuesAfterStrSet(values: map<(int, string), string>, entry: (int, string), value: string, expire: int)
    : (written: map<(int, string), string>)
  {
    if expire != NotExpire && ExpiresAtOnce(expire) then values - {entry} else values[entry := value]
  }

  /** The expiries once `strSet` has written under `entry`: the write drops
      any earlier expiry, and a positive `expire` records the new one. */
  function ExpiriesAfterStrSet(expiries: map<(int, string), Expiry>, entry: (int, string), expire: int, unit: TimeUnit)
    : (written: map<(int, string), Expiry>)
  {
    if expire == NotExpire || ExpiresAtOnce(expire) then expiries - {entry}
    else (expiries - {entry})[entry := Expiry(expire, unit)]
  }

  /** After `strSet`, the entry holds the value exactly when no expiry or a
      positive one was asked for; every other entry is as it was. */
  lemma StrSetReadBack(values: map<(int, string), string>, entry: (int, string), value: string, expire: int)
    ensures entry in ValuesAfterStrSet(values, entry, value, expire) <==> expire == NotExpire || expire > 0
    ensures entry in ValuesAfterStrSet(values, entry, value, expire) ==>
      ValuesAfterStrSet(values, entry, value, expire)[entry] == value
    ensures forall other :: other != entry ==>
      (other in ValuesAfterStrSet(values, entry, value, expire) <==> other in values)
    ensures forall other :: other != entry && other in values ==>
      ValuesAfterStrSet(values, entry, value, expire)[other] == values[other]
  {
  }

  /** The Redis server, by database and key. */
  class Store {
    var values: map<(int, string), string>
    var expiries: map<(int, string), Expiry>

    constructor ()
      ensures values == map[] && expiries == map[]
    {
      values := map[];
      expiries := map[];
    }

    /** SET: stores the value and, as Redis does, discards an earlier expiry. */
    method Set(database: int, key: string, value: string)
      modifies this
      ensures values == old(values)[(database, key) := value]
      ensures expiries == old(expiries) - {(database, key)}
    {
      values := values[(database, key) := value];
      expiries := expiries - {(database, key)};
    }

    /** GET: the value, or null when the key is absent. */
    method Get(database: int, key: string) returns (value: Option<string>)
      ensures (database, key) in values ==> value == Some(values[(database, key)])
      ensures (database, key) !in values ==> value == None
    {
      value := if (database, key) in values then Some(values[(database, key)]) else None;
    }

    /** (P)EXPIRE: answers whether the key exists; if it does, a positive
        timeout is recorded and a non-positive one deletes the key. */
    method Expire(database: int, key: string, timeout: int, unit: TimeUnit) returns (applied: bool)
      modifies this
      ensures applied <==> (database, key) in old(values)
      ensures !applied ==> values == old(values) && expiries == old(expiries)
      ensures applied && ExpiresAtOnce(timeout) ==>
        values == old(values) - {(database, key)} && expiries == old(expiries) - {(database, key)}
      ensures applied && !ExpiresAtOnce(timeout) ==>
        values == old(values) && expiries == old(expiries)[(database, key) := Expiry(timeout, unit)]
    {
      applied := (database, key) in values;
      if applied {
        if ExpiresAtOnce(timeout) {
          values := values - {(database, key)};
          expiries := expiries - {(database, key)};
        } else {
          expiries := expiries[(database, key) := Expiry(timeout, unit)];
        }
      }
    }
  }

  class RedisHelper {
    /** The single dynamic template every operation goes through. */
    const redisTemplate: DynamicRedisTemplate
    const store: Store

    ghost predicate Valid()
      reads this, redisTemplate
    {
      redisTemplate.Valid()
    }

    constructor (template: DynamicRedisTemplate, server: Store)
      requires template.Valid()
      ensures Valid() && redisTemplate == template && store == server
    {
      redisTemplate := template;
      store := server;
    }

    /** `setCurrentDatabase`: exactly a push onto the selector stack. */
    method SetCurrentDatabase(database: int)
      modifies redisTemplate.selector
      ensures redisTemplate.selector.deque == Pushed(old(redisTemplate.selector.deque), database)
    {
      redisTemplate.selector.Set(database);
    }

    /** `clearCurrentDatabase`: exactly a `clear` of the selector stack. */
    method ClearCurrentDatabase()
      modifies redisTemplate.selector
      ensures redisTemplate.selector.deque == Cleared(old(redisTemplate.selector.deque))
    {
      redisTemplate.selector.Clear();
    }

    /** `setExpire`: through the routed template, in seconds when no unit
        is given. The router resolves once; a failure changes nothing. */
    method SetExpire(key: string, expire: int, timeUnit: Option<TimeUnit>) returns (r: Result<bool>)
      requires Valid()
      modifies redisTemplate, store
      ensures Valid()
      ensures var k := old(Top(redisTemplate.selector.deque));
        redisTemplate.ResolvedFrom(old(redisTemplate.redisTemplates), old(redisTemplate.built), k, old(redisTemplate.Lookup(k)))
      ensures var t := old(redisTemplate.Lookup(Top(redisTemplate.selector.deque)));
        && (t.Failure? ==> r == Failure(t.error) && store.values == old(store.values) && store.expiries == old(store.expiries))
        && (t.Success? ==>
              var entry := (t.value.Database(), key);
              && r == Success(entry in old(store.values))
              && (entry !in old(store.values) ==>
                    store.values == old(store.values) && store.expiries == old(store.expiries))
              && (entry in old(store.values) && ExpiresAtOnce(expire) ==>
                    store.values == old(store.values) - {entry} && store.expiries == old(store.expiries) - {entry})
              && (entry in old(store.values) && !ExpiresAtOnce(expire) ==>
                    store.values == old(store.values)
                    && store.expiries == old(store.expiries)[entry := Expiry(expire, UnitOrSeconds(timeUnit))]))
    {
      var t := redisTemplate.Resolve();
      if t.Failure? {
        return Failure(t.error);
      }
      var applied := store.Expire(t.value.Database(), key, expire, UnitOrSeconds(timeUnit));
      r := Success(applied);
    }

    /** `strSet`: writes the value, then sets an expiry unless `expire` is
        `NotExpire`; both go through the same routed template, so both
        reach the same database, and only the first resolve can build. */
    method StrSet(key: string, value: string, expire: int, timeUnit: Option<TimeUnit>) returns (r: Result<()>)
      requires Valid()
      modifies redisTemplate, store
      ensures Valid()
      ensures var k := old(Top(redisTemplate.selector.deque));
        redisTemplate.ResolvedFrom(old(redisTemplate.redisTemplates), old(redisTemplate.built), k, old(redisTemplate.Lookup(k)))
      ensures var t := old(redisTemplate.Lookup(Top(redisTemplate.selector.deque)));
        && (t.Failure? ==> r == Failure(t.error) && store.values == old(store.values) && store.expiries == old(store.expiries))
        && (t.Success? ==>
              var entry := (t.value.Database(), key);
              && r == Success(())
              && store.values == ValuesAfterStrSet(old(store.values), entry, value, expire)
              && store.expiries == ExpiriesAfterStrSet(old(store.expiries), entry, expire, UnitOrSeconds(timeUnit)))
    {
      var t := redisTemplate.Resolve();
      if t.Failure? {
        return Failure(t.error);
      }
      store.Set(t.value.Database(), key, value);
      if expire != NotExpire {
        var applied := SetExpire(key, expire, timeUnit);
        assert applied == Success(true);
      }
      r := Success(());
    }

    /** `strGet`: the value under the routed template's database, or null. */
    method StrGet(key: string) returns (r: Result<Option<string>>)
      requires Valid()
      modifies redisTemplate
      ensures Valid()
      ensures var k := old(Top(redisTemplate.selector.deque));
        redisTemplate.ResolvedFrom(old(redisTemplate.redisTemplates), old(redisTemplate.built), k, old(redisTemplate.Lookup(k)))
      ensures var t := old(redisTemplate.Lookup(Top(redisTemplate.selector.deque)));
        && (t.Failure? ==> r == Failure(t.error))
        && (t.Success? ==>
              var entry := (t.value.Database(), key);
              r == Success(if entry in store.values then Some(store.values[entry]) else None))
    {
      var t := redisTemplate.Resolve();
      if t.Failure? {
        return Failure(t.error);
      }
      var value := store.Get(t.value.Database(), key);
      r := Success(value);
    }

    /** `strSetWithDb`: `strSet` with `database` selected; the selector
        stack is cleared again on every path, so it ends as it began. */
    method StrSetWithDb(database: int, key: string, value: string, expire: int, timeUnit: Option<TimeUnit>)
      returns (r: Result<()>)
      requires Valid()
      modifies redisTemplate.selector, redisTemplate, store
      ensures Valid()
      ensures redisTemplate.selector.deque == old(redisTemplate.selector.deque)
      ensures redisTemplate.ResolvedFrom(old(redisTemplate.redisTemplates), old(redisTemplate.built),
                                         Some(database), old(redisTemplate.Lookup(Some(database))))
      ensures r.Success? ==> database in redisTemplate.redisTemplates
      ensures var t := old(redisTemplate.Lookup(Some(database)));
        && (t.Failure? ==> r == Failure(t.error) && store.values == old(store.values) && store.expiries == old(store.expiries))
        && (t.Success? ==>
              var entry := (t.value.Database(), key);
              && r == Success(())
              && store.values == ValuesAfterStrSet(old(store.values), entry, value, expire)
              && store.expiries == ExpiriesAfterStrSet(old(store.expiries), entry, expire, UnitOrSeconds(timeUnit)))
      ensures r.Success? && redisTemplate.SeededBound() ==>
        store.values == ValuesAfterStrSet(old(store.values), (database, key), value, expire)
    {
      SetCurrentDatabase(database);
      r := StrSet(key, value, expire, timeUnit);
      ClearCurrentDatabase();
    }

    /** `strGetWithDb`: `strGet` with `database` selected; the selector
        stack is cleared again on every path, so it ends as it began. */
    method StrGetWithDb(database: int, key: string) returns (r: Result<Option<string>>)
      requires Valid()
      modifies redisTemplate.selector, redisTemplate
      ensures Valid()
      ensures redisTemplate.selector.deque == old(redisTemplate.selector.deque)
      ensures redisTemplate.ResolvedFrom(old(redisTemplate.redisTemplates), old(redisTemplate.built),
                                         Some(database), old(redisTemplate.Lookup(Some(database))))
      ensures r.Success? ==> database in redisTemplate.redisTemplates
      ensures var t := old(redisTemplate.Lookup(Some(database)));
        && (t.Failure? ==> r == Failure(t.error))
        && (t.Success? ==>
              var entry := (t.value.Database(), key);
              r == Success(if entry in store.values then Some(store.values[entry]) else None))
    {
      SetCurrentDatabase(database);
      r := StrGet(key);
      ClearCurrentDatabase();
    }

    /** What `strGetWithDb` reads after `strSetWithDb` on the same database
        and key: the value when no expiry or a positive one was set, null
        when a non-positive expiry deleted it. The template for `database`
        is built at most once across both calls. */
    method SetThenGetWithDb(database: int, key: string, value: string, expire: int, timeUnit: Option<TimeUnit>)
      returns (written: Result<()>, read: Result<Option<string>>)
      requires Valid()
      modifies redisTemplate.selector, redisTemplate, store
      ensures Valid()
      ensures redisTemplate.selector.deque == old(redisTemplate.selector.deque)
      ensures redisTemplate.ResolvedFrom(old(redisTemplate.redisTemplates), old(redisTemplate.built),
                                         Some(database), old(redisTemplate.Lookup(Some(database))))
      ensures written.Success? && (expire == NotExpire || expire > 0) ==> read == Success(Some(value))
      ensures written.Success? && expire != NotExpire && expire <= 0 ==> read == Success(None)
      ensures written.Failure? ==> read == Failure(written.error)
    {
      written := StrSetWithDb(database, key, value, expire, timeUnit);
      ghost var t := redisTemplate.Lookup(Some(database));
      read := StrGetWithDb(database, key);
      if written.Success? {
        StrSetReadBack(old(store.values), (t.value.Database(), key), value, expire);
      }
    }
  }
}
