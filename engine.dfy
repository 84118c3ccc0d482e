/**
 * The store engine of src/index.ts (class `SnapDB`) as functions on a state
 * value. Each operation maps the state before the call to the state after it
 * and the call's result. Time is an explicit `now` argument standing for
 * `Date.now()`. The class in snapdb.dfy is proved to follow these functions
 * step for step.
 *
 * The state holds the two maps of the class, the recency list of every LRU
 * plugin instance, and `trace`, the sequence of hook calls made so far. The
 * trace is what lets the model state the pipeline's order.
 */
module Engine {
  import opened Values
  import opened Hooks
  import opened LruPlugin
  import opened Pattern

  /** The construction options that stay fixed for the life of a store. */
  datatype Config<!V> = Config(
    namespace: string,
    defaultTTL: int,
    middleware: seq<Middleware<V>>,
    plugins: seq<Plugin<V>>)

  datatype State<V> = State(
    store: map<string, Value<V>>,     // namespaced key -> value
    ttls: map<string, int>,           // namespaced key -> absolute expiry instant
    usage: map<Tracker, seq<string>>, // recency list of each LRU plugin instance
    trace: seq<Event<V>>)             // every hook call, oldest first

  /** What `stats()` returns; `memory` is the constant 0 of the source. */
  datatype Stats = Stats(keys: nat, memory: int)

  // ----- Namespacing (getKey) -----

  /** The prefix every internal key of a namespaced store starts with. */
  function Prefix(namespace: string): string {
    if namespace != "" then namespace + ":" else ""
  }

  /** `getKey`: `namespace:key` in a namespaced store, the bare key otherwise. */
  function FullKey(namespace: string, key: string): (fk: string)
    ensures fk == Prefix(namespace) + key
  {
    if namespace != "" then namespace + ":" + key else key
  }

  // ----- State helpers -----

  function UsageOf<V>(s: State<V>, t: Tracker): seq<string> {
    if t in s.usage then s.usage[t] else []
  }

  /**
   * The invariant every operation keeps: an expiry only for a key that is
   * stored, and duplicate-free recency lists.
   */
  ghost predicate Consistent<V>(s: State<V>) {
    && s.ttls.Keys <= s.store.Keys
    && forall t :: t in s.usage ==> Distinct(s.usage[t])
  }

  /** The lazy-expiry test of `get` and `exists`: an expiry instant not after `now`. */
  predicate Expired(ttls: map<string, int>, fk: string, now: int) {
    fk in ttls && ttls[fk] <= now
  }

  /** Removes an entry from both maps, as every deletion path does. */
  function Remove<V>(s: State<V>, fk: string): (r: State<V>)
    ensures fk !in r.store && fk !in r.ttls
    ensures forall k :: k != fk ==> (k in r.store <==> k in s.store) && (k in r.ttls <==> k in s.ttls)
    ensures r.usage == s.usage && r.trace == s.trace
  {
    s.(store := s.store - {fk}, ttls := s.ttls - {fk})
  }

  // ----- The write of `set` -----

  /** JavaScript's `ttl || defaultTTL`: an explicit non-zero ttl or a non-zero default. */
  predicate HasExpiry(ttl: Option<int>, defaultTTL: int) {
    (ttl.Some? && ttl.value != 0) || defaultTTL != 0
  }

  /** JavaScript's `ttl ?? defaultTTL`: an explicit ttl, zero included, wins. */
  function Duration(ttl: Option<int>, defaultTTL: int): int {
    if ttl.Some? then ttl.value else defaultTTL
  }

  /** The mutation of `set`: the value always, the expiry when there is one. */
  function WriteEntry<V>(s: State<V>, fk: string, value: Value<V>, ttl: Option<int>, defaultTTL: int, now: int): (r: State<V>)
    ensures r.store == s.store[fk := value]
    ensures fk in r.ttls <==> HasExpiry(ttl, defaultTTL)
    ensures fk in r.ttls ==> r.ttls[fk] == now + Duration(ttl, defaultTTL)
    ensures forall k :: k != fk ==> (k in r.ttls <==> k in s.ttls) && (k in r.ttls ==> r.ttls[k] == s.ttls[k])
    ensures r.usage == s.usage && r.trace == s.trace
  {
    var ttls := if HasExpiry(ttl, defaultTTL) then s.ttls[fk := now + Duration(ttl, defaultTTL)] else s.ttls - {fk};
    s.(store := s.store[fk := value], ttls := ttls)
  }

  // ----- Hook chains -----

  /** A value-transforming hook slot: `(key, value) => value'`, possibly absent. */
  type Transform<!V> = Option<(string, Value<V>) -> Result<Value<V>>>

  /** The middleware `beforeSet` slots, in registration order. */
  function BeforeSetHooks<V>(mws: seq<Middleware<V>>): (r: seq<Transform<V>>)
    ensures |r| == |mws| && forall i :: 0 <= i < |mws| ==> r[i] == mws[i].beforeSet
  {
    seq(|mws|, i requires 0 <= i < |mws| => mws[i].beforeSet)
  }

  /** The middleware `afterGet` slots, in registration order. */
  function AfterGetHooks<V>(mws: seq<Middleware<V>>): (r: seq<Transform<V>>)
    ensures |r| == |mws| && forall i :: 0 <= i < |mws| ==> r[i] == mws[i].afterGet
  {
    seq(|mws|, i requires 0 <= i < |mws| => mws[i].afterGet)
  }

  /** The plugin `beforeGet` slots; the LRU plugin has none. */
  function BeforeGetHooks<V>(ps: seq<Plugin<V>>): (r: seq<Transform<V>>)
    ensures |r| == |ps|
    ensures forall i :: 0 <= i < |ps| ==> r[i] == if ps[i].Custom? then ps[i].hooks.beforeGet else None
  {
    seq(|ps|, i requires 0 <= i < |ps| => if ps[i].Custom? then ps[i].hooks.beforeGet else None)
  }

  /**
   * A chain of value transforms from position `i` on: each present hook is
   * recorded, then applied to the output of the one before it; the first
   * error ends the chain.
   */
  function TransformChain<V>(hooks: seq<Transform<V>>, h: Hook, i: nat, key: string, value: Value<V>, trace: seq<Event<V>>)
    : (seq<Event<V>>, Result<Value<V>>)
    decreases |hooks| - i
  {
    if i >= |hooks| then (trace, Ok(value))
    else if hooks[i].None? then TransformChain(hooks, h, i + 1, key, value, trace)
    else
      var trace' := trace + [Call(h, i, key, value, None)];
      match hooks[i].value(key, value)
      case Err(e) => (trace', Err(e))
      case Ok(v) => TransformChain(hooks, h, i + 1, key, v, trace')
  }

  /** The outcome each plugin's `afterSet` gives for these arguments, if it has one. */
  function AfterSetOutcomes<V>(ps: seq<Plugin<V>>, key: string, value: Value<V>, ttl: Option<int>): (r: seq<Option<Outcome>>)
    ensures |r| == |ps|
    ensures forall i :: 0 <= i < |ps| ==>
      r[i] == if ps[i].Custom? && ps[i].hooks.afterSet.Some? then Some(ps[i].hooks.afterSet.value(key, value, ttl)) else None
  {
    seq(|ps|, i requires 0 <= i < |ps| =>
      if ps[i].Custom? && ps[i].hooks.afterSet.Some? then Some(ps[i].hooks.afterSet.value(key, value, ttl)) else None)
  }

  /** The outcome each plugin's `beforeDel` gives for `key`, if it has one. */
  function BeforeDelOutcomes<V>(ps: seq<Plugin<V>>, key: string): (r: seq<Option<Outcome>>)
    ensures |r| == |ps|
    ensures forall i :: 0 <= i < |ps| ==>
      r[i] == if ps[i].Custom? && ps[i].hooks.beforeDel.Some? then Some(ps[i].hooks.beforeDel.value(key)) else None
  {
    seq(|ps|, i requires 0 <= i < |ps| =>
      if ps[i].Custom? && ps[i].hooks.beforeDel.Some? then Some(ps[i].hooks.beforeDel.value(key)) else None)
  }

  /** The outcome each plugin's `onClose` gives, if it has one. */
  function CloseOutcomes<V>(ps: seq<Plugin<V>>): (r: seq<Option<Outcome>>)
    ensures |r| == |ps|
    ensures forall i :: 0 <= i < |ps| ==>
      r[i] == if ps[i].Custom? && ps[i].hooks.onClose.Some? then Some(ps[i].hooks.onClose.value()) else None
  {
    seq(|ps|, i requires 0 <= i < |ps| =>
      if ps[i].Custom? && ps[i].hooks.onClose.Some? then Some(ps[i].hooks.onClose.value()) else None)
  }

  /**
   * A chain of side-effect-only hooks from position `i` on: each present hook
   * is recorded as `call` stamped with its position; the first failure ends
   * the chain.
   */
  function NotifyChain<V>(outcomes: seq<Option<Outcome>>, call: Event<V>, i: nat, trace: seq<Event<V>>)
    : (seq<Event<V>>, Outcome)
    decreases |outcomes| - i
  {
    if i >= |outcomes| then (trace, Pass)
    else if outcomes[i].None? then NotifyChain(outcomes, call, i + 1, trace)
    else
      var trace' := trace + [call.(index := i)];
      if outcomes[i].value.Fail? then (trace', outcomes[i].value)
      else NotifyChain(outcomes, call, i + 1, trace')
  }

  /**
   * The plugin `beforeSet` chain from position `i` on. A custom plugin may
   * replace the value and, when it returns a ttl, the ttl. The LRU plugin
   * updates its recency list and, when it evicts, runs a complete `del` of
   * the evicted key before the chain goes on.
   */
  function PluginBeforeSetChain<V>(c: Config<V>, i: nat, key: string, value: Value<V>, ttl: Option<int>, s: State<V>)
    : (State<V>, Result<SetArgs<V>>)
    decreases |c.plugins| - i
  {
    if i >= |c.plugins| then (s, Ok(SetArgs(value, ttl)))
    else
      var s' := s.(trace := s.trace + [Call(PluginBeforeSet, i, key, value, ttl)]);
      match c.plugins[i]
      case Custom(h) =>
        if h.beforeSet.None? then PluginBeforeSetChain(c, i + 1, key, value, ttl, s)
        else (
          match h.beforeSet.value(key, value, ttl)
          case Err(e) => (s', Err(e))
          case Ok(out) =>
            PluginBeforeSetChain(c, i + 1, key, out.value, if out.ttl.Some? then out.ttl else ttl, s'))
      case Lru(t) =>
        var (u, evicted) := BeforeSetUsage(UsageOf(s, t), key, t.maxKeys);
        var s'' := s'.(usage := s'.usage[t := u]);
        if evicted.None? then PluginBeforeSetChain(c, i + 1, key, value, ttl, s'')
        else
          var (s3, d) := DelSpec(c, s'', evicted.value);
          if d.Err? then (s3, Err(d.error))
          else PluginBeforeSetChain(c, i + 1, key, value, ttl, s3)
  }

  /** The plugin `afterGet` chain from position `i` on; its outcomes never change the value read. */
  function PluginAfterGetChain<V>(ps: seq<Plugin<V>>, i: nat, key: string, value: Value<V>, s: State<V>)
    : (State<V>, Outcome)
    decreases |ps| - i
  {
    if i >= |ps| then (s, Pass)
    else
      var s' := s.(trace := s.trace + [Call(PluginAfterGet, i, key, value, None)]);
      match ps[i]
      case Custom(h) =>
        if h.afterGet.None? then PluginAfterGetChain(ps, i + 1, key, value, s)
        else if h.afterGet.value(key, value).Fail? then (s', h.afterGet.value(key, value))
        else PluginAfterGetChain(ps, i + 1, key, value, s')
      case Lru(t) =>
        PluginAfterGetChain(ps, i + 1, key, value, s'.(usage := s'.usage[t := AfterGetUsage(UsageOf(s, t), key, value)]))
  }

  /** The plugin `afterDel` chain from position `i` on. */
  function PluginAfterDelChain<V>(ps: seq<Plugin<V>>, i: nat, key: string, s: State<V>)
    : (State<V>, Outcome)
    decreases |ps| - i
  {
    if i >= |ps| then (s, Pass)
    else
      var s' := s.(trace := s.trace + [Call(PluginAfterDel, i, key, Undefined, None)]);
      match ps[i]
      case Custom(h) =>
        if h.afterDel.None? then PluginAfterDelChain(ps, i + 1, key, s)
        else if h.afterDel.value(key).Fail? then (s', h.afterDel.value(key))
        else PluginAfterDelChain(ps, i + 1, key, s')
      case Lru(t) =>
        PluginAfterDelChain(ps, i + 1, key, s'.(usage := s'.usage[t := Without(UsageOf(s, t), key)]))
  }

  // ----- The operations -----

  /**
   * `set(key, value, ttl?)`: the `beforeSet` hooks, then, when none of them
   * threw, the write and the plugin `afterSet` hooks.
   */
  function SetSpec<V>(c: Config<V>, s: State<V>, key: string, value: Value<V>, ttl: Option<int>, now: int)
    : (State<V>, Outcome)
  {
    var (s2, pre) := PreSet(c, s, key, value, ttl);
    if pre.Err? then (s2, Fail(pre.error))
    else CommitSet(c, s2, key, pre.value.value, pre.value.ttl, now)
  }

  /**
   * The first half of `set`: middleware `beforeSet` in order, then plugin
   * `beforeSet` in order; the value and ttl the write will use, or the first
   * error.
   */
  function PreSet<V>(c: Config<V>, s: State<V>, key: string, value: Value<V>, ttl: Option<int>)
    : (State<V>, Result<SetArgs<V>>)
  {
    var (trace1, mw) := TransformChain(BeforeSetHooks(c.middleware), MiddlewareBeforeSet, 0, key, value, s.trace);
    if mw.Err? then (s.(trace := trace1), Err(mw.error))
    else PluginBeforeSetChain(c, 0, key, mw.value, ttl, s.(trace := trace1))
  }

  /** The second half of `set`, once every `beforeSet` hook has passed: the write, then plugin `afterSet` in order. */
  function CommitSet<V>(c: Config<V>, s: State<V>, key: string, value: Value<V>, ttl: Option<int>, now: int)
    : (State<V>, Outcome)
  {
    var s3 := WriteEntry(s, FullKey(c.namespace, key), value, ttl, c.defaultTTL, now);
    var (trace4, post) := NotifyChain(AfterSetOutcomes(c.plugins, key, value, ttl),
                                      Call(PluginAfterSet, 0, key, value, ttl), 0, s3.trace);
    (s3.(trace := trace4), post)
  }

  /**
   * `get(key)`: an expired entry is dropped and reads as `undefined` with no
   * hook called; otherwise the raw value goes through plugin `beforeGet`,
   * then middleware `afterGet`, and plugin `afterGet` observes the result.
   */
  function GetSpec<V>(c: Config<V>, s: State<V>, key: string, now: int): (State<V>, Result<Value<V>>)
  {
    var fk := FullKey(c.namespace, key);
    if Expired(s.ttls, fk, now) then (Remove(s, fk), Ok(Undefined))
    else
      var raw := if fk in s.store then s.store[fk] else Undefined;
      var (trace1, pre) := TransformChain(BeforeGetHooks(c.plugins), PluginBeforeGet, 0, key, raw, s.trace);
      if pre.Err? then (s.(trace := trace1), Err(pre.error))
      else
        var (trace2, mw) := TransformChain(AfterGetHooks(c.middleware), MiddlewareAfterGet, 0, key, pre.value, trace1);
        if mw.Err? then (s.(trace := trace2), Err(mw.error))
        else
          var (s3, post) := PluginAfterGetChain(c.plugins, 0, key, mw.value, s.(trace := trace2));
          if post.Fail? then (s3, Err(post.error)) else (s3, Ok(mw.value))
  }

  /**
   * `del(key)`: plugin `beforeDel` in order, removal from both maps, plugin
   * `afterDel` in order; the result says whether the value map held the key.
   */
  function DelSpec<V>(c: Config<V>, s: State<V>, key: string): (State<V>, Result<bool>)
  {
    var fk := FullKey(c.namespace, key);
    var (trace1, pre) := NotifyChain(BeforeDelOutcomes(c.plugins, key), Call(PluginBeforeDel, 0, key, Undefined, None), 0, s.trace);
    if pre.Fail? then (s.(trace := trace1), Err(pre.error))
    else
      var (s2, post) := PluginAfterDelChain(c.plugins, 0, key, Remove(s, fk).(trace := trace1));
      if post.Fail? then (s2, Err(post.error)) else (s2, Ok(fk in s.store))
  }

  /** `exists(key)`: the lazy-expiry check, then presence in the value map; no hook. */
  function ExistsSpec<V>(c: Config<V>, s: State<V>, key: string, now: int): (State<V>, bool)
  {
    var fk := FullKey(c.namespace, key);
    if Expired(s.ttls, fk, now) then (Remove(s, fk), false) else (s, fk in s.store)
  }

  /** The namespaced keys whose expiry instant is not after `now`. */
  function ExpiredKeys(ttls: map<string, int>, now: int): (dead: set<string>)
    ensures forall k :: k in dead <==> Expired(ttls, k, now)
  {
    set k | k in ttls && ttls[k] <= now
  }

  /**
   * `cleanupExpired`: exactly the entries whose expiry instant is not after
   * `now` leave both maps; nothing else changes and no hook runs.
   */
  function Sweep<V>(s: State<V>, now: int): (r: State<V>)
    ensures forall k :: k in r.store <==> k in s.store && !Expired(s.ttls, k, now)
    ensures forall k :: k in r.store ==> r.store[k] == s.store[k]
    ensures forall k :: k in r.ttls <==> k in s.ttls && now < s.ttls[k]
    ensures forall k :: k in r.ttls ==> r.ttls[k] == s.ttls[k] && !Expired(r.ttls, k, now)
    ensures r.usage == s.usage && r.trace == s.trace
  {
    var dead := ExpiredKeys(s.ttls, now);
    s.(store := s.store - dead, ttls := s.ttls - dead)
  }

  /**
   * `keys(pattern?)`: the stored keys of this namespace, without the prefix;
   * a non-empty pattern keeps those it matches as a whole.
   */
  function KeysOf<V>(namespace: string, store: map<string, Value<V>>, pattern: Option<string>): (r: set<string>)
    requires pattern.Some? ==> PlainPattern(pattern.value)
    ensures forall k :: k in r <==>
      FullKey(namespace, k) in store && (pattern.None? || pattern.value == "" || GlobMatch(pattern.value, k))
  {
    var prefix := Prefix(namespace);
    var all := set fk | fk in store && prefix <= fk :: fk[|prefix|..];
    assert forall k :: k in all <==> prefix + k in store by {
      forall k ensures k in all <==> prefix + k in store {
        if prefix + k in store {
          assert (prefix + k)[|prefix|..] == k;
        }
        if k in all {
          var fk :| fk in store && prefix <= fk && fk[|prefix|..] == k;
          assert fk == prefix + k;
        }
      }
    }
    if pattern.None? || pattern.value == "" then all
    else set k | k in all && GlobMatch(pattern.value, k)
  }

  /**
   * `ttl(key)`: the time left before the expiry instant when it is still in
   * the future, `None` (the source's `null`) otherwise; nothing is removed.
   */
  function TtlOf(namespace: string, ttls: map<string, int>, key: string, now: int): (r: Option<int>)
    ensures var fk := FullKey(namespace, key);
      r.Some? <==> fk in ttls && !Expired(ttls, fk, now)
    ensures r.Some? ==> r.value > 0 && ttls[FullKey(namespace, key)] == now + r.value
  {
    var fk := FullKey(namespace, key);
    if fk !in ttls then None
    else
      var remaining := ttls[fk] - now;
      if remaining > 0 then Some(remaining) else None
  }

  /** `stats()`: the number of entries in the value map, expired ones not yet dropped included. */
  function StatsOf<V>(store: map<string, Value<V>>): (r: Stats)
    ensures r.keys == |store.Keys| && r.memory == 0
  {
    Stats(|store|, 0)
  }

  /** The `onClose` calls of `close()`, in order, up to the first failure. */
  function CloseSpec<V>(ps: seq<Plugin<V>>, trace: seq<Event<V>>): (seq<Event<V>>, Outcome)
  {
    NotifyChain(CloseOutcomes(ps), OnClose(0), 0, trace)
  }
}
