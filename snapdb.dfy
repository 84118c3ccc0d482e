/**
 * The class `SnapDB` of src/index.ts. Its two maps and its timer are fields
 * that the methods update in place. The construction options are constants.
 * `trace` is a ghost record of every hook call. Each method runs the hook
 * loops of the source one call at a time and is proved to end in the state,
 * and with the result, that the matching function of module `Engine` gives.
 *
 * `Date.now()` is the parameter `now`. The interval timer is the flag
 * `cleanupTimer`, and one firing of it is the method `Tick`.
 */
module Store {
  import opened Values
  import opened Hooks
  import opened LruPlugin
  import opened Pattern
  import opened Engine

  /** `SnapDBOptions`: every option may be left out. */
  datatype Options<!V> = Options(
    defaultTTL: Option<int>,
    cleanupInterval: Option<int>,
    namespace: Option<string>,
    plugins: Option<seq<Plugin<V>>>,
    middleware: Option<seq<Middleware<V>>>)

  function Or<T>(o: Option<T>, default: T): T {
    if o.Some? then o.value else default
  }

  class SnapDB<V> {
    var store: map<string, Value<V>>
    var ttls: map<string, int>
    const defaultTTL: int
    const cleanupInterval: int
    const namespace: string
    var cleanupTimer: bool
    const plugins: seq<Plugin<V>>
    const middleware: seq<Middleware<V>>
    ghost var trace: seq<Event<V>>

    function Configuration(): Config<V> {
      Config(namespace, defaultTTL, middleware, plugins)
    }

    /** The LRU plugin instances among the plugins: the state the hooks may change. */
    function Trackers(): set<Tracker> {
      set i | 0 <= i < |plugins| && plugins[i].Lru? :: plugins[i].tracker
    }

    ghost function Usage(): map<Tracker, seq<string>>
      reads Trackers()
    {
      map t | t in Trackers() :: t.usage
    }

    /** The abstract state the `Engine` functions work on. */
    ghost function Snapshot(): State<V>
      reads this, Trackers()
    {
      State(store, ttls, Usage(), trace)
    }

    ghost predicate Valid()
      reads this, Trackers()
    {
      Consistent(Snapshot())
    }

    /**
     * The constructor with the defaults of the source: no default ttl, a
     * 1000 ms sweep period, no namespace, no extensions; the sweep timer is
     * started.
     */
    constructor (options: Options<V>)
      requires forall p :: p in Or(options.plugins, []) && p.Lru? ==> p.tracker.Valid()
      ensures Valid()
      ensures defaultTTL == Or(options.defaultTTL, 0) && cleanupInterval == Or(options.cleanupInterval, 1000)
      ensures namespace == Or(options.namespace, "")
      ensures plugins == Or(options.plugins, []) && middleware == Or(options.middleware, [])
      ensures store == map[] && ttls == map[] && trace == [] && cleanupTimer
    {
      store := map[];
      ttls := map[];
      defaultTTL := Or(options.defaultTTL, 0);
      cleanupInterval := Or(options.cleanupInterval, 1000);
      namespace := Or(options.namespace, "");
      plugins := Or(options.plugins, []);
      middleware := Or(options.middleware, []);
      trace := [];
      cleanupTimer := true;
      new;
      assert forall t :: t in Trackers() ==> t.Valid();
    }

    /** `cleanupExpired`: walks the expiry map and drops every entry whose instant has come. */
    method CleanupExpired(now: int)
      requires Valid()
      modifies this
      ensures Valid() && cleanupTimer == old(cleanupTimer)
      ensures Snapshot() == Sweep(old(Snapshot()), now)
    {
      ghost var s0 := Snapshot();
      ghost var dead := ExpiredKeys(s0.ttls, now);
      var pending := ttls.Keys;
      while pending != {}
        invariant pending <= s0.ttls.Keys
        invariant store == s0.store - (dead - pending)
        invariant ttls == s0.ttls - (dead - pending)
        invariant trace == s0.trace && cleanupTimer == old(cleanupTimer)
        decreases pending
      {
        var k :| k in pending;
        if ttls[k] <= now {
          store := store - {k};
          ttls := ttls - {k};
        }
        pending := pending - {k};
      }
      assert dead - pending == dead;
    }

    /** One firing of the interval timer; after `Close` it does nothing. */
    method Tick(now: int)
      requires Valid()
      modifies this
      ensures Valid() && cleanupTimer == old(cleanupTimer)
      ensures Snapshot() == if cleanupTimer then Sweep(old(Snapshot()), now) else old(Snapshot())
    {
      if cleanupTimer {
        CleanupExpired(now);
      }
    }

    // ----- The hook loops -----

    /**
     * A loop of value-transforming hooks (middleware `beforeSet`, plugin
     * `beforeGet`, middleware `afterGet`): each present hook gets the output
     * of the one before it; the first one that throws ends the loop.
     */
    method RunTransforms(hooks: seq<Transform<V>>, h: Hook, key: string, value: Value<V>) returns (r: Result<Value<V>>)
      modifies this`trace
      ensures Usage() == old(Usage())
      ensures (trace, r) == TransformChain(hooks, h, 0, key, value, old(trace))
    {
      var v := value;
      var i := 0;
      while i < |hooks|
        invariant i <= |hooks|
        invariant TransformChain(hooks, h, i, key, v, trace) == TransformChain(hooks, h, 0, key, value, old(trace))
      {
        if hooks[i].Some? {
          trace := trace + [Call(h, i, key, v, None)];
          var out := hooks[i].value(key, v);
          if out.Err? {
            return Err(out.error);
          }
          v := out.value;
        }
        i := i + 1;
      }
      r := Ok(v);
    }

    /** The LRU plugin's `beforeSet` hook on one of this store's trackers. */
    method LruBeforeSet(tracker: Tracker, key: string) returns (evicted: Option<string>)
      requires Valid() && tracker in Trackers()
      modifies tracker
      ensures Valid()
      ensures (tracker.usage, evicted) == BeforeSetUsage(UsageOf(old(Snapshot()), tracker), key, tracker.maxKeys)
      ensures Snapshot() == old(Snapshot()).(usage := old(Usage())[tracker := tracker.usage])
    {
      assert Usage()[tracker] == tracker.usage;
      evicted := tracker.BeforeSet(key);
    }

    /** The LRU plugin's `afterGet` hook on one of this store's trackers. */
    method LruAfterGet(tracker: Tracker, key: string, value: Value<V>)
      requires Valid() && tracker in Trackers()
      modifies tracker
      ensures Valid()
      ensures Snapshot() == old(Snapshot()).(usage := old(Usage())[tracker := AfterGetUsage(UsageOf(old(Snapshot()), tracker), key, value)])
    {
      assert Usage()[tracker] == tracker.usage;
      tracker.AfterGet(key, value);
    }

    /** The LRU plugin's `afterDel` hook on one of this store's trackers. */
    method LruAfterDel(tracker: Tracker, key: string)
      requires Valid() && tracker in Trackers()
      modifies tracker
      ensures Valid()
      ensures Snapshot() == old(Snapshot()).(usage := old(Usage())[tracker := Without(UsageOf(old(Snapshot()), tracker), key)])
    {
      assert Usage()[tracker] == tracker.usage;
      tracker.AfterDel(key);
    }

    /** The plugin `beforeSet` loop of `set`, with the LRU plugin's eviction. */
    method PluginsBeforeSet(key: string, value: Value<V>, ttl: Option<int>) returns (r: Result<SetArgs<V>>)
      requires Valid()
      modifies this, Trackers()
      ensures Valid() && cleanupTimer == old(cleanupTimer)
      ensures (Snapshot(), r) == PluginBeforeSetChain(Configuration(), 0, key, value, ttl, old(Snapshot()))
    {
      var v, t := value, ttl;
      var i := 0;
      while i < |plugins|
        invariant i <= |plugins|
        invariant Valid() && cleanupTimer == old(cleanupTimer)
        invariant PluginBeforeSetChain(Configuration(), i, key, v, t, Snapshot())
               == PluginBeforeSetChain(Configuration(), 0, key, value, ttl, old(Snapshot()))
      {
        var out := BeforeSetStep(i, key, v, t);
        if out.Err? {
          return out;
        }
        v, t := out.value.value, out.value.ttl;
        i := i + 1;
      }
      r := Ok(SetArgs(v, t));
    }

    /** The `beforeSet` hook of the plugin at position `i`: its error, or the value and ttl it passes on. */
    method BeforeSetStep(i: nat, key: string, v: Value<V>, t: Option<int>) returns (r: Result<SetArgs<V>>)
      requires Valid() && i < |plugins|
      modifies this, Trackers()
      ensures Valid() && cleanupTimer == old(cleanupTimer)
      ensures r.Err? ==> (Snapshot(), r) == PluginBeforeSetChain(Configuration(), i, key, v, t, old(Snapshot()))
      ensures r.Ok? ==> (PluginBeforeSetChain(Configuration(), i + 1, key, r.value.value, r.value.ttl, Snapshot())
                         == PluginBeforeSetChain(Configuration(), i, key, v, t, old(Snapshot())))
    {
      match plugins[i] {
      case Custom(h) =>
        if h.beforeSet.None? {
          return Ok(SetArgs(v, t));
        }
        trace := trace + [Call(PluginBeforeSet, i, key, v, t)];
        var out := h.beforeSet.value(key, v, t);
        if out.Err? {
          return Err(out.error);
        }
        r := Ok(SetArgs(out.value.value, if out.value.ttl.Some? then out.value.ttl else t));
      case Lru(tracker) =>
        ghost var s0 := Snapshot();
        trace := trace + [Call(PluginBeforeSet, i, key, v, t)];
        var evicted := LruBeforeSet(tracker, key);
        ghost var s2 := Snapshot();
        assert s2 == s0.(trace := s2.trace, usage := s0.usage[tracker := tracker.usage]);
        if evicted.Some? {
          var d := Del(evicted.value);
          if d.Err? {
            assert PluginBeforeSetChain(Configuration(), i, key, v, t, s0) == (Snapshot(), Err(d.error));
            return Err(d.error);
          }
        }
        r := Ok(SetArgs(v, t));
      }
    }

    /** The plugin `afterSet` loop of `set`. */
    method PluginsAfterSet(key: string, value: Value<V>, ttl: Option<int>) returns (r: Outcome)
      modifies this`trace
      ensures Usage() == old(Usage())
      ensures (trace, r) == NotifyChain(AfterSetOutcomes(plugins, key, value, ttl), Call(PluginAfterSet, 0, key, value, ttl), 0, old(trace))
    {
      var i := 0;
      while i < |plugins|
        invariant i <= |plugins|
        invariant NotifyChain(AfterSetOutcomes(plugins, key, value, ttl), Call(PluginAfterSet, 0, key, value, ttl), i, trace)
               == NotifyChain(AfterSetOutcomes(plugins, key, value, ttl), Call(PluginAfterSet, 0, key, value, ttl), 0, old(trace))
      {
        if plugins[i].Custom? && plugins[i].hooks.afterSet.Some? {
          trace := trace + [Call(PluginAfterSet, i, key, value, ttl)];
          var out := plugins[i].hooks.afterSet.value(key, value, ttl);
          if out.Fail? {
            return out;
          }
        }
        i := i + 1;
      }
      r := Pass;
    }

    /** The plugin `afterGet` loop of `get`: observers, whose results are dropped. */
    method PluginsAfterGet(key: string, value: Value<V>) returns (r: Outcome)
      requires Valid()
      modifies this, Trackers()
      ensures Valid() && cleanupTimer == old(cleanupTimer)
      ensures (Snapshot(), r) == PluginAfterGetChain(plugins, 0, key, value, old(Snapshot()))
    {
      var i := 0;
      while i < |plugins|
        invariant i <= |plugins|
        invariant Valid() && cleanupTimer == old(cleanupTimer)
        invariant PluginAfterGetChain(plugins, i, key, value, Snapshot()) == PluginAfterGetChain(plugins, 0, key, value, old(Snapshot()))
      {
        var out := AfterGetStep(i, key, value);
        if out.Fail? {
          return out;
        }
        i := i + 1;
      }
      r := Pass;
    }

    /** The `afterGet` hook of the plugin at position `i`. */
    method AfterGetStep(i: nat, key: string, value: Value<V>) returns (r: Outcome)
      requires Valid() && i < |plugins|
      modifies this, Trackers()
      ensures Valid() && cleanupTimer == old(cleanupTimer)
      ensures r.Fail? ==> (Snapshot(), r) == PluginAfterGetChain(plugins, i, key, value, old(Snapshot()))
      ensures r.Pass? ==> PluginAfterGetChain(plugins, i + 1, key, value, Snapshot()) == PluginAfterGetChain(plugins, i, key, value, old(Snapshot()))
    {
      match plugins[i] {
      case Custom(h) =>
        if h.afterGet.Some? {
          trace := trace + [Call(PluginAfterGet, i, key, value, None)];
          r := h.afterGet.value(key, value);
        } else {
          r := Pass;
        }
      case Lru(tracker) =>
        trace := trace + [Call(PluginAfterGet, i, key, value, None)];
        LruAfterGet(tracker, key, value);
        r := Pass;
      }
    }

    /** The plugin `beforeDel` loop of `del`. */
    method PluginsBeforeDel(key: string) returns (r: Outcome)
      modifies this`trace
      ensures Usage() == old(Usage())
      ensures (trace, r) == NotifyChain(BeforeDelOutcomes(plugins, key), Call(PluginBeforeDel, 0, key, Undefined, None), 0, old(trace))
    {
      var i := 0;
      while i < |plugins|
        invariant i <= |plugins|
        invariant NotifyChain(BeforeDelOutcomes(plugins, key), Call(PluginBeforeDel, 0, key, Undefined, None), i, trace)
               == NotifyChain(BeforeDelOutcomes(plugins, key), Call(PluginBeforeDel, 0, key, Undefined, None), 0, old(trace))
      {
        if plugins[i].Custom? && plugins[i].hooks.beforeDel.Some? {
          trace := trace + [Call(PluginBeforeDel, i, key, Undefined, None)];
          var out := plugins[i].hooks.beforeDel.value(key);
          if out.Fail? {
            return out;
          }
        }
        i := i + 1;
      }
      r := Pass;
    }

    /** The plugin `afterDel` loop of `del`. */
    method PluginsAfterDel(key: string) returns (r: Outcome)
      requires Valid()
      modifies this, Trackers()
      ensures Valid() && cleanupTimer == old(cleanupTimer)
      ensures (Snapshot(), r) == PluginAfterDelChain(plugins, 0, key, old(Snapshot()))
    {
      var i := 0;
      while i < |plugins|
        invariant i <= |plugins|
        invariant Valid() && cleanupTimer == old(cleanupTimer)
        invariant PluginAfterDelChain(plugins, i, key, Snapshot()) == PluginAfterDelChain(plugins, 0, key, old(Snapshot()))
      {
        var out := AfterDelStep(i, key);
        if out.Fail? {
          return out;
        }
        i := i + 1;
      }
      r := Pass;
    }

    /** The `afterDel` hook of the plugin at position `i`. */
    method AfterDelStep(i: nat, key: string) returns (r: Outcome)
      requires Valid() && i < |plugins|
      modifies this, Trackers()
      ensures Valid() && cleanupTimer == old(cleanupTimer)
      ensures r.Fail? ==> (Snapshot(), r) == PluginAfterDelChain(plugins, i, key, old(Snapshot()))
      ensures r.Pass? ==> PluginAfterDelChain(plugins, i + 1, key, Snapshot()) == PluginAfterDelChain(plugins, i, key, old(Snapshot()))
    {
      match plugins[i] {
      case Custom(h) =>
        if h.afterDel.Some? {
          trace := trace + [Call(PluginAfterDel, i, key, Undefined, None)];
          r := h.afterDel.value(key);
        } else {
          r := Pass;
        }
      case Lru(tracker) =>
        trace := trace + [Call(PluginAfterDel, i, key, Undefined, None)];
        LruAfterDel(tracker, key);
        r := Pass;
      }
    }

    // ----- The operations -----

    /** `set(key, value, ttl?)`. */
    method Set(key: string, value: Value<V>, ttl: Option<int>, now: int) returns (r: Outcome)
      requires Valid()
      modifies this, Trackers()
      ensures Valid() && cleanupTimer == old(cleanupTimer)
      ensures (Snapshot(), r) == SetSpec(Configuration(), old(Snapshot()), key, value, ttl, now)
    {
      var fullKey := FullKey(namespace, key);
      var mw := RunTransforms(BeforeSetHooks(middleware), MiddlewareBeforeSet, key, value);
      if mw.Err? {
        return Fail(mw.error);
      }
      var pl := PluginsBeforeSet(key, mw.value, ttl);
      if pl.Err? {
        return Fail(pl.error);
      }
      r := Commit(key, pl.value.value, pl.value.ttl, now);
    }

    /** The write of `set` and its plugin `afterSet` loop. */
    method Commit(key: string, v: Value<V>, t: Option<int>, now: int) returns (r: Outcome)
      requires Valid()
      modifies this
      ensures Valid() && cleanupTimer == old(cleanupTimer)
      ensures (Snapshot(), r) == CommitSet(Configuration(), old(Snapshot()), key, v, t, now)
    {
      Write(FullKey(namespace, key), v, t, now);
      r := PluginsAfterSet(key, v, t);
    }

    /** The mutation of `set`: the value always; the expiry when the ttl or the default asks for one. */
    method Write(fullKey: string, v: Value<V>, t: Option<int>, now: int)
      modifies this`store, this`ttls
      ensures Usage() == old(Usage())
      ensures Snapshot() == WriteEntry(old(Snapshot()), fullKey, v, t, defaultTTL, now)
    {
      store := store[fullKey := v];
      if (t.Some? && t.value != 0) || defaultTTL != 0 {
        ttls := ttls[fullKey := now + if t.Some? then t.value else defaultTTL];
      } else {
        ttls := ttls - {fullKey};
      }
    }

    /** `get(key)`. */
    method Get(key: string, now: int) returns (r: Result<Value<V>>)
      requires Valid()
      modifies this, Trackers()
      ensures Valid() && cleanupTimer == old(cleanupTimer)
      ensures (Snapshot(), r) == GetSpec(Configuration(), old(Snapshot()), key, now)
    {
      var fullKey := FullKey(namespace, key);
      if fullKey in ttls && ttls[fullKey] <= now {
        store := store - {fullKey};
        ttls := ttls - {fullKey};
        return Ok(Undefined);
      }
      var raw := if fullKey in store then store[fullKey] else Undefined;
      var pre := RunTransforms(BeforeGetHooks(plugins), PluginBeforeGet, key, raw);
      if pre.Err? {
        return Err(pre.error);
      }
      var mw := RunTransforms(AfterGetHooks(middleware), MiddlewareAfterGet, key, pre.value);
      if mw.Err? {
        return Err(mw.error);
      }
      var post := PluginsAfterGet(key, mw.value);
      if post.Fail? {
        return Err(post.error);
      }
      r := Ok(mw.value);
    }

    /** `del(key)`. */
    method Del(key: string) returns (r: Result<bool>)
      requires Valid()
      modifies this, Trackers()
      ensures Valid() && cleanupTimer == old(cleanupTimer)
      ensures (Snapshot(), r) == DelSpec(Configuration(), old(Snapshot()), key)
    {
      ghost var s0 := Snapshot();
      var fullKey := FullKey(namespace, key);
      var pre := PluginsBeforeDel(key);
      ghost var s1 := s0.(trace := trace);
      assert Snapshot() == s1;
      if pre.Fail? {
        assert DelSpec(Configuration(), s0, key) == (s1, Err(pre.error));
        return Err(pre.error);
      }
      var deleted := Erase(fullKey);
      var post := PluginsAfterDel(key);
      if post.Fail? {
        assert DelSpec(Configuration(), s0, key) == (Snapshot(), Err(post.error));
        return Err(post.error);
      }
      r := Ok(deleted);
      assert DelSpec(Configuration(), s0, key) == (Snapshot(), r);
    }

    /** The mutation of `del`: the expiry, then the value; whether there was a value. */
    method Erase(fullKey: string) returns (deleted: bool)
      modifies this`store, this`ttls
      ensures Usage() == old(Usage())
      ensures Snapshot() == Remove(old(Snapshot()), fullKey)
      ensures deleted == (fullKey in old(store))
    {
      ttls := ttls - {fullKey};
      deleted := fullKey in store;
      store := store - {fullKey};
    }

    /** `exists(key)`. */
    method Exists(key: string, now: int) returns (r: bool)
      requires Valid()
      modifies this
      ensures Valid() && cleanupTimer == old(cleanupTimer)
      ensures (Snapshot(), r) == ExistsSpec(Configuration(), old(Snapshot()), key, now)
    {
      var fullKey := FullKey(namespace, key);
      if fullKey in ttls && ttls[fullKey] <= now {
        store := store - {fullKey};
        ttls := ttls - {fullKey};
        return false;
      }
      r := fullKey in store;
    }

    /** `keys(pattern?)` on the current maps; it only delegates to `KeysOf`, where its properties are proved. */
    function Keys(pattern: Option<string>): (r: set<string>)
      reads this
      requires pattern.Some? ==> PlainPattern(pattern.value)
      ensures r == KeysOf(namespace, store, pattern)
    {
      KeysOf(namespace, store, pattern)
    }

    /** `ttl(key)` on the current maps; it only delegates to `TtlOf`, where its properties are proved. */
    function Ttl(key: string, now: int): (r: Option<int>)
      reads this
      ensures r == TtlOf(namespace, ttls, key, now)
    {
      TtlOf(namespace, ttls, key, now)
    }

    /** `stats()` on the current maps; it only delegates to `StatsOf`, where its properties are proved. */
    function GetStats(): (r: Stats)
      reads this
      ensures r == StatsOf(store)
    {
      StatsOf(store)
    }

    /**
     * `close()`: stops the sweep timer first, so that it stays stopped even
     * when an `onClose` hook fails, then runs the `onClose` hooks in order.
     */
    method Close() returns (r: Outcome)
      requires Valid()
      modifies this
      ensures Valid() && !cleanupTimer
      ensures store == old(store) && ttls == old(ttls)
      ensures (trace, r) == CloseSpec(plugins, old(trace))
    {
      cleanupTimer := false;
      var i := 0;
      while i < |plugins|
        invariant i <= |plugins|
        invariant store == old(store) && ttls == old(ttls) && !cleanupTimer
        invariant NotifyChain(CloseOutcomes(plugins), OnClose(0), i, trace) == NotifyChain(CloseOutcomes(plugins), OnClose(0), 0, old(trace))
      {
        if plugins[i].Custom? && plugins[i].hooks.onClose.Some? {
          trace := trace + [OnClose(i)];
          var out := plugins[i].hooks.onClose.value();
          if out.Fail? {
            return out;
          }
        }
        i := i + 1;
      }
      r := Pass;
    }
  }
}
