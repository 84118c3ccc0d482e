/**
 * A store whose only extension is one instance of `LRUPlugin`
 * (src/plugins/plugin-lru.ts) composed with the engine of src/index.ts: what
 * `set`, `get` and `del` do to the entries and to the plugin's recency list,
 * the eviction's nested `del` included.
 */
module LruStore {
  import opened Values
  import opened Hooks
  import opened LruPlugin
  import opened Engine

  /** The configuration of a store whose one plugin is `t` and which has no middleware. */
  function LruConfig<V>(namespace: string, defaultTTL: int, t: Tracker): (c: Config<V>)
    ensures c.middleware == [] && c.plugins == [Lru(t)]
    ensures c.namespace == namespace && c.defaultTTL == defaultTTL
  {
    Config(namespace, defaultTTL, [], [Lru(t)])
  }

  /**
   * The nested `del` of an eviction, in a store whose only plugin is `t`:
   * it always succeeds, drops the key's entry and expiry, and leaves the
   * recency list without the key.
   */
  lemma LruDel<V>(namespace: string, defaultTTL: int, t: Tracker, s: State<V>, key: string)
    ensures var c := LruConfig<V>(namespace, defaultTTL, t);
      var (s', r) := DelSpec(c, s, key);
      var fk := FullKey(namespace, key);
      && r == Ok(fk in s.store)
      && s'.store == s.store - {fk} && s'.ttls == s.ttls - {fk}
      && s'.usage == s.usage[t := Without(UsageOf(s, t), key)]
  {
    var c := LruConfig<V>(namespace, defaultTTL, t);
    var call := Call(PluginBeforeDel, 0, key, Undefined, None);
    var fk := FullKey(namespace, key);
    assert BeforeDelOutcomes(c.plugins, key) == [None];
    assert NotifyChain([None], call, 1, s.trace) == (s.trace, Pass);
    assert NotifyChain(BeforeDelOutcomes(c.plugins, key), call, 0, s.trace) == (s.trace, Pass);
    var s1 := Remove(s, fk).(trace := s.trace);
    var s2 := s1.(trace := s1.trace + [Call(PluginAfterDel, 0, key, Undefined, None)]);
    var s3 := s2.(usage := s2.usage[t := Without(UsageOf(s1, t), key)]);
    assert PluginAfterDelChain(c.plugins, 1, key, s3) == (s3, Pass);
    assert PluginAfterDelChain(c.plugins, 0, key, s1) == (s3, Pass);
    assert DelSpec(c, s, key) == (s3, Ok(fk in s.store));
  }

  /**
   * The `beforeSet` phase of `set` in a store whose only plugin is `t`: the
   * recency list becomes the one `beforeSet` computes and, when that evicts a
   * key, the key's entry and expiry are deleted; value and ttl pass unchanged.
   */
  lemma LruPreSet<V>(namespace: string, defaultTTL: int, t: Tracker, s: State<V>, key: string, value: Value<V>, ttl: Option<int>)
    requires Distinct(UsageOf(s, t))
    ensures var c := LruConfig<V>(namespace, defaultTTL, t);
      var (u, evicted) := BeforeSetUsage(UsageOf(s, t), key, t.maxKeys);
      var (s3, pre) := PreSet(c, s, key, value, ttl);
      var gone := if evicted.Some? then {FullKey(namespace, evicted.value)} else {};
      && pre == Ok(SetArgs(value, ttl))
      && s3.store == s.store - gone && s3.ttls == s.ttls - gone
      && UsageOf(s3, t) == u
  {
    var c := LruConfig<V>(namespace, defaultTTL, t);
    var (u, evicted) := BeforeSetUsage(UsageOf(s, t), key, t.maxKeys);
    BeforeSetSpec(UsageOf(s, t), key, t.maxKeys);
    assert TransformChain(BeforeSetHooks(c.middleware), MiddlewareBeforeSet, 0, key, value, s.trace) == (s.trace, Ok(value));
    var s1 := s.(trace := s.trace + [Call(PluginBeforeSet, 0, key, value, ttl)]);
    var s2 := s1.(usage := s1.usage[t := u]);
    var s3;
    if evicted.Some? {
      LruDel(namespace, defaultTTL, t, s2, evicted.value);
      WithoutAbsent(u, evicted.value);
      s3 := DelSpec(c, s2, evicted.value).0;
    } else {
      s3 := s2;
    }
    assert UsageOf(s3, t) == u;
    assert PluginBeforeSetChain(c, 1, key, value, ttl, s3) == (s3, Ok(SetArgs(value, ttl)));
    assert PluginBeforeSetChain(c, 0, key, value, ttl, s1.(trace := s.trace)) == (s3, Ok(SetArgs(value, ttl)));
  }

  /**
   * `set` in a store whose only plugin is `t`: after the `beforeSet` phase
   * above, the value is written under the namespaced key with the expiry the
   * ttl calls for, and the call succeeds.
   */
  lemma LruSet<V>(namespace: string, defaultTTL: int, t: Tracker, s: State<V>, key: string, value: Value<V>, ttl: Option<int>, now: int)
    requires Distinct(UsageOf(s, t))
    ensures var c := LruConfig<V>(namespace, defaultTTL, t);
      var (u, evicted) := BeforeSetUsage(UsageOf(s, t), key, t.maxKeys);
      var (s', r) := SetSpec(c, s, key, value, ttl, now);
      var gone := if evicted.Some? then {FullKey(namespace, evicted.value)} else {};
      var fk := FullKey(namespace, key);
      && r == Pass
      && s'.store == (s.store - gone)[fk := value]
      && s'.ttls == (if HasExpiry(ttl, defaultTTL) then (s.ttls - gone)[fk := now + Duration(ttl, defaultTTL)] else s.ttls - gone - {fk})
      && UsageOf(s', t) == u
  {
    var c := LruConfig<V>(namespace, defaultTTL, t);
    LruPreSet(namespace, defaultTTL, t, s, key, value, ttl);
    var s3 := PreSet(c, s, key, value, ttl).0;
    var fk := FullKey(namespace, key);
    var s4 := WriteEntry(s3, fk, value, ttl, defaultTTL, now);
    assert s4.ttls == (if HasExpiry(ttl, defaultTTL) then s3.ttls[fk := now + Duration(ttl, defaultTTL)] else s3.ttls - {fk});
    assert AfterSetOutcomes(c.plugins, key, value, ttl) == [None];
    assert NotifyChain([None], Call(PluginAfterSet, 0, key, value, ttl), 1, s4.trace) == (s4.trace, Pass);
    assert CommitSet(c, s3, key, value, ttl, now) == (s4, Pass);
  }

  /**
   * `get` of an unexpired key in a store whose only plugin is `t`: it
   * returns the stored value, or `undefined` for a missing key, changes
   * neither map, and makes the key most recent exactly when the value read
   * is not `undefined`.
   */
  lemma LruGet<V>(namespace: string, defaultTTL: int, t: Tracker, s: State<V>, key: string, now: int)
    requires !Expired(s.ttls, FullKey(namespace, key), now)
    ensures var c := LruConfig<V>(namespace, defaultTTL, t);
      var (s', r) := GetSpec(c, s, key, now);
      var fk := FullKey(namespace, key);
      var raw := if fk in s.store then s.store[fk] else Undefined;
      && r == Ok(raw)
      && s'.store == s.store && s'.ttls == s.ttls
      && s'.usage == s.usage[t := AfterGetUsage(UsageOf(s, t), key, raw)]
  {
    var c := LruConfig<V>(namespace, defaultTTL, t);
    var fk := FullKey(namespace, key);
    var raw := if fk in s.store then s.store[fk] else Undefined;
    assert BeforeGetHooks(c.plugins) == [None];
    assert TransformChain([None], PluginBeforeGet, 1, key, raw, s.trace) == (s.trace, Ok(raw));
    assert TransformChain(BeforeGetHooks(c.plugins), PluginBeforeGet, 0, key, raw, s.trace) == (s.trace, Ok(raw));
    assert TransformChain(AfterGetHooks(c.middleware), MiddlewareAfterGet, 0, key, raw, s.trace) == (s.trace, Ok(raw));
    var s1 := s.(trace := s.trace + [Call(PluginAfterGet, 0, key, raw, None)]);
    var s2 := s1.(usage := s1.usage[t := AfterGetUsage(UsageOf(s, t), key, raw)]);
    assert PluginAfterGetChain(c.plugins, 1, key, raw, s2) == (s2, Pass);
    assert PluginAfterGetChain(c.plugins, 0, key, raw, s) == (s2, Pass);
    assert GetSpec(c, s, key, now) == (s2, Ok(raw));
  }
}
