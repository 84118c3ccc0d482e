/**
 * The behaviours the repository's own tests describe, as concrete runs of
 * the engine: LRU eviction and recency (tests/plugins/plugin-lru.test.ts),
 * key listing with patterns and `stats` (tests/snapdb.test.ts), the
 * validation middleware (tests/middleware/validate-middleware.test.ts), the
 * hook order of one `set`, and a swept key that its LRU plugin still lists.
 * Each holds at every clock reading `now` the run is performed at.
 */
module Scenarios {
  import opened Values
  import opened Hooks
  import opened LruPlugin
  import opened Pattern
  import opened Engine
  import opened LruStore
  import ValidateMiddleware

  /** A store that has never been written to. */
  function Empty<V>(): State<V> {
    State(map[], map[], map[], [])
  }

  /**
   * `s` holds exactly the entries `store`, none with an expiry, and `t`'s
   * recency list is `usage` (a store without namespace, whose internal keys
   * are the caller's keys).
   */
  ghost predicate Holds<V>(s: State<V>, t: Tracker, store: map<string, Value<V>>, usage: seq<string>) {
    s.store == store && s.ttls == map[] && UsageOf(s, t) == usage
  }

  /** One `set` without ttl in a store whose only plugin is `t`, stated on `Holds`. */
  lemma SetStep<V>(t: Tracker, s: State<V>, store: map<string, Value<V>>, usage: seq<string>, key: string, value: Value<V>, now: int)
    requires Holds(s, t, store, usage) && Distinct(usage)
    ensures var (u, evicted) := BeforeSetUsage(usage, key, t.maxKeys);
      var (s', r) := SetSpec(LruConfig<V>("", 0, t), s, key, value, None, now);
      r == Pass && Holds(s', t, (if evicted.Some? then store - {evicted.value} else store)[key := value], u)
  {
    LruSet("", 0, t, s, key, value, None, now);
  }

  /** One `get` in the same store: the stored value or `undefined`, and the recency update. */
  lemma GetStep<V>(t: Tracker, s: State<V>, store: map<string, Value<V>>, usage: seq<string>, key: string, now: int)
    requires Holds(s, t, store, usage)
    ensures var raw := if key in store then store[key] else Undefined;
      var (s', r) := GetSpec(LruConfig<V>("", 0, t), s, key, now);
      r == Ok(raw) && Holds(s', t, store, AfterGetUsage(usage, key, raw))
  {
    LruGet("", 0, t, s, key, now);
  }

  /** `set a, b` on a fresh store with `maxKeys: 2`: both kept, `a` the least recent. */
  lemma SetTwo(t: Tracker, now: int)
    requires t.maxKeys == 2
    ensures var c := LruConfig<int>("", 0, t);
      var (s1, r1) := SetSpec(c, Empty(), "a", Defined(1), None, now);
      var (s2, r2) := SetSpec(c, s1, "b", Defined(2), None, now);
      r1 == r2 == Pass && Holds(s2, t, map["a" := Defined(1), "b" := Defined(2)], ["a", "b"])
  {
    var c := LruConfig<int>("", 0, t);
    var s0: State<int> := Empty();
    assert Without([], "a") == [];
    SetStep(t, s0, map[], [], "a", Defined(1), now);
    var s1 := SetSpec(c, s0, "a", Defined(1), None, now).0;
    assert Without(["a"], "b") == ["a"];
    SetStep(t, s1, map["a" := Defined(1)], ["a"], "b", Defined(2), now);
  }

  /** A third key over `maxKeys: 2` evicts the front of the recency list. */
  lemma SetThird(t: Tracker, s: State<int>, x: string, y: string, vx: int, vy: int, now: int)
    requires t.maxKeys == 2 && x != y && x != "" && x != "c" && y != "c"
    requires Holds(s, t, map[x := Defined(vx), y := Defined(vy)], [x, y])
    ensures var (s', r) := SetSpec(LruConfig<int>("", 0, t), s, "c", Defined(3), None, now);
      r == Pass && Holds(s', t, map[y := Defined(vy), "c" := Defined(3)], [y, "c"])
  {
    assert Without([y], "c") == [y];
    assert Without([x, y], "c") == [x, y];
    assert Without(["c"], x) == ["c"];
    assert Without([y, "c"], x) == [y, "c"];
    assert Without([x, y, "c"], x) == [y, "c"];
    assert MoveToBack([x, y], "c") == [x, y, "c"];
    assert BeforeSetUsage([x, y], "c", t.maxKeys) == ([y, "c"], Some(x));
    assert (map[x := Defined(vx), y := Defined(vy)] - {x})["c" := Defined(3)] == map[y := Defined(vy), "c" := Defined(3)];
    SetStep(t, s, map[x := Defined(vx), y := Defined(vy)], [x, y], "c", Defined(3), now);
  }

  /** Three reads of `x`, `y`, `z` in turn, each seeing the entries `store`. */
  lemma ReadThree(t: Tracker, s: State<int>, store: map<string, Value<int>>, usage: seq<string>, x: string, y: string, z: string, now: int)
    requires Holds(s, t, store, usage)
    ensures var c := LruConfig<int>("", 0, t);
      var (s1, gx) := GetSpec(c, s, x, now);
      var (s2, gy) := GetSpec(c, s1, y, now);
      var (s3, gz) := GetSpec(c, s2, z, now);
      && gx == Ok(if x in store then store[x] else Undefined)
      && gy == Ok(if y in store then store[y] else Undefined)
      && gz == Ok(if z in store then store[z] else Undefined)
  {
    var c := LruConfig<int>("", 0, t);
    GetStep(t, s, store, usage, x, now);
    var s1 := GetSpec(c, s, x, now).0;
    var u1 := AfterGetUsage(usage, x, if x in store then store[x] else Undefined);
    GetStep(t, s1, store, u1, y, now);
    var s2 := GetSpec(c, s1, y, now).0;
    GetStep(t, s2, store, AfterGetUsage(u1, y, if y in store then store[y] else Undefined), z, now);
  }

  /** `set a, b, c` with `maxKeys: 2`: `a` is evicted, `b` and `c` stay readable. */
  lemma EvictsLeastRecentlyUsed(t: Tracker, now: int)
    requires t.maxKeys == 2
    ensures var c := LruConfig<int>("", 0, t);
      var (s1, r1) := SetSpec(c, Empty(), "a", Defined(1), None, now);
      var (s2, r2) := SetSpec(c, s1, "b", Defined(2), None, now);
      var (s3, r3) := SetSpec(c, s2, "c", Defined(3), None, now);
      var (s4, ga) := GetSpec(c, s3, "a", now);
      var (s5, gb) := GetSpec(c, s4, "b", now);
      var (s6, gc) := GetSpec(c, s5, "c", now);
      && r1 == r2 == r3 == Pass
      && ga == Ok(Undefined) && gb == Ok(Defined(2)) && gc == Ok(Defined(3))
  {
    var c := LruConfig<int>("", 0, t);
    SetTwo(t, now);
    var s1 := SetSpec(c, Empty(), "a", Defined(1), None, now).0;
    var s2 := SetSpec(c, s1, "b", Defined(2), None, now).0;
    SetThird(t, s2, "a", "b", 1, 2, now);
    var s3 := SetSpec(c, s2, "c", Defined(3), None, now).0;
    ReadThree(t, s3, map["b" := Defined(2), "c" := Defined(3)], ["b", "c"], "a", "b", "c", now);
  }

  /** `set a, b`, `get a`, `set c` with `maxKeys: 2`: the read saves `a`, so `b` is evicted instead. */
  lemma ReadRefreshesRecency(t: Tracker, now: int)
    requires t.maxKeys == 2
    ensures var c := LruConfig<int>("", 0, t);
      var (s1, r1) := SetSpec(c, Empty(), "a", Defined(1), None, now);
      var (s2, r2) := SetSpec(c, s1, "b", Defined(2), None, now);
      var (s3, g) := GetSpec(c, s2, "a", now);
      var (s4, r4) := SetSpec(c, s3, "c", Defined(3), None, now);
      var (s5, ga) := GetSpec(c, s4, "a", now);
      var (s6, gb) := GetSpec(c, s5, "b", now);
      var (s7, gc) := GetSpec(c, s6, "c", now);
      && r1 == r2 == r4 == Pass && g == Ok(Defined(1))
      && ga == Ok(Defined(1)) && gb == Ok(Undefined) && gc == Ok(Defined(3))
  {
    var c := LruConfig<int>("", 0, t);
    SetTwo(t, now);
    var s1 := SetSpec(c, Empty(), "a", Defined(1), None, now).0;
    var s2 := SetSpec(c, s1, "b", Defined(2), None, now).0;
    var storeAB := map["a" := Defined(1), "b" := Defined(2)];
    GetStep(t, s2, storeAB, ["a", "b"], "a", now);
    assert Without(["a", "b"], "a") == ["b"];
    assert storeAB == map["b" := Defined(2), "a" := Defined(1)];
    var s3 := GetSpec(c, s2, "a", now).0;
    SetThird(t, s3, "b", "a", 2, 1, now);
    var s4 := SetSpec(c, s3, "c", Defined(3), None, now).0;
    ReadThree(t, s4, map["a" := Defined(1), "c" := Defined(3)], ["a", "c"], "a", "b", "c", now);
  }

  /**
   * With `maxKeys: 2`, an empty store whose recency list still holds `a`:
   * writing `b` evicts nothing, and writing `c` then evicts `a`, so `b` and
   * `c` both stay.
   */
  lemma DeadKeyEvicted(t: Tracker, s: State<int>, now: int)
    requires t.maxKeys == 2 && Holds(s, t, map[], ["a"])
    ensures var c := LruConfig<int>("", 0, t);
      var (s1, r1) := SetSpec(c, s, "b", Defined(2), None, now);
      var (s2, r2) := SetSpec(c, s1, "c", Defined(3), None, now);
      && r1 == Pass && Holds(s1, t, map["b" := Defined(2)], ["a", "b"])
      && r2 == Pass && Holds(s2, t, map["b" := Defined(2), "c" := Defined(3)], ["b", "c"])
  {
    assert Without([], "b") == [];
    assert Without(["a"], "b") == ["a"];
    assert MoveToBack(["a"], "b") == ["a", "b"];
    assert BeforeSetUsage(["a"], "b", t.maxKeys) == (["a", "b"], None);
    SetStep(t, s, map[], ["a"], "b", Defined(2), now);
    var s1 := SetSpec(LruConfig<int>("", 0, t), s, "b", Defined(2), None, now).0;
    assert Without(["b"], "c") == ["b"];
    assert Without(["a", "b"], "c") == ["a", "b"];
    assert Without(["c"], "a") == ["c"];
    assert Without(["b", "c"], "a") == ["b", "c"];
    assert Without(["a", "b", "c"], "a") == ["b", "c"];
    assert BeforeSetUsage(["a", "b"], "c", t.maxKeys) == (["b", "c"], Some("a"));
    SetStep(t, s1, map["b" := Defined(2)], ["a", "b"], "c", Defined(3), now);
    assert (map["b" := Defined(2)] - {"a"})["c" := Defined(3)] == map["b" := Defined(2), "c" := Defined(3)];
  }

  /**
   * An LRU store with `maxKeys: 2` where `a` was written with a ttl: once the
   * sweep has dropped `a`, the plugin still lists it, because expiry calls no
   * hook; after two more writes the eviction picks the dead key, so both new
   * entries stay and the list forgets `a` only then.
   */
  lemma SweptKeyStaysListed(t: Tracker, now: int)
    requires t.maxKeys == 2
    ensures var c := LruConfig<int>("", 0, t);
      var (s1, r1) := SetSpec(c, Empty(), "a", Defined(1), Some(10), now);
      var s2 := Sweep(s1, now + 10);
      var (s3, r3) := SetSpec(c, s2, "b", Defined(2), None, now + 10);
      var (s4, r4) := SetSpec(c, s3, "c", Defined(3), None, now + 10);
      && r1 == Pass && r3 == Pass && r4 == Pass
      && "a" !in s2.store && UsageOf(s2, t) == ["a"]
      && UsageOf(s3, t) == ["a", "b"]
      && s4.store == map["b" := Defined(2), "c" := Defined(3)] && UsageOf(s4, t) == ["b", "c"]
  {
    var c := LruConfig<int>("", 0, t);
    var s0: State<int> := Empty();
    assert Without([], "a") == [];
    LruSet("", 0, t, s0, "a", Defined(1), Some(10), now);
    var s1 := SetSpec(c, s0, "a", Defined(1), Some(10), now).0;
    var s2 := Sweep(s1, now + 10);
    assert s2.store == map[] && s2.ttls == map[];
    DeadKeyEvicted(t, s2, now + 10);
  }

  // ----- A store with the default options -----

  /** `new SnapDB()`: no namespace, no default ttl, no middleware, no plugin. */
  function Plain<V>(): (c: Config<V>)
    ensures c.middleware == [] && c.plugins == [] && c.namespace == "" && c.defaultTTL == 0
  {
    Config("", 0, [], [])
  }

  /** One `set` without ttl on the default store: the entry is written, nothing else. */
  lemma PlainSetStep<V>(s: State<V>, store: map<string, Value<V>>, key: string, value: Value<V>, now: int)
    requires s.store == store && s.ttls == map[]
    ensures var (s', r) := SetSpec(Plain<V>(), s, key, value, None, now);
      r == Pass && s'.store == store[key := value] && s'.ttls == map[]
  {
    var c := Plain<V>();
    assert TransformChain(BeforeSetHooks(c.middleware), MiddlewareBeforeSet, 0, key, value, s.trace) == (s.trace, Ok(value));
    assert PreSet(c, s, key, value, None) == (s, Ok(SetArgs(value, None)));
    var s3 := WriteEntry(s, key, value, None, 0, now);
    assert s3.ttls == map[];
    assert NotifyChain(AfterSetOutcomes(c.plugins, key, value, None), Call(PluginAfterSet, 0, key, value, None), 0, s3.trace) == (s3.trace, Pass);
  }

  /** `set a, b, c` on the default store: the entries are exactly `a`, `b` and `c`. */
  lemma SetThreePlain(now: int)
    ensures var c := Plain<int>();
      var (s1, r1) := SetSpec(c, Empty(), "a", Defined(1), None, now);
      var (s2, r2) := SetSpec(c, s1, "b", Defined(2), None, now);
      var (s3, r3) := SetSpec(c, s2, "c", Defined(3), None, now);
      && r1 == r2 == r3 == Pass
      && s2.store == map["a" := Defined(1), "b" := Defined(2)]
      && s3.store == map["a" := Defined(1), "b" := Defined(2), "c" := Defined(3)]
  {
    var c := Plain<int>();
    PlainSetStep(Empty(), map[], "a", Defined(1), now);
    var s1 := SetSpec(c, Empty(), "a", Defined(1), None, now).0;
    PlainSetStep(s1, map["a" := Defined(1)], "b", Defined(2), now);
    var s2 := SetSpec(c, s1, "b", Defined(2), None, now).0;
    PlainSetStep(s2, map["a" := Defined(1), "b" := Defined(2)], "c", Defined(3), now);
  }

  /** On the entries `a`, `b`, `c`: no pattern and `*` list all three, `a` only itself. */
  lemma ListsThree(store: map<string, Value<int>>)
    requires store == map["a" := Defined(1), "b" := Defined(2), "c" := Defined(3)]
    ensures PlainPattern("a") && PlainPattern("*")
    ensures KeysOf("", store, None) == {"a", "b", "c"}
    ensures KeysOf("", store, Some("a")) == {"a"}
    ensures KeysOf("", store, Some("*")) == {"a", "b", "c"}
  {
    assert !IsRegexSyntax('*') && !IsRegexSyntax('a');
    forall k ensures GlobMatch("a", k) <==> k == "a" {
      LiteralMatch("a", k);
    }
    StarMatch("a");
    StarMatch("b");
    StarMatch("c");
  }

  /**
   * After `set a, b, c`: `keys()` lists the three, `keys('a')` only `a`,
   * `keys('*')` all three; after `set a, b` alone, `stats().keys` is 2.
   */
  lemma KeysAndStats(now: int)
    ensures PlainPattern("a") && PlainPattern("*")
    ensures var c := Plain<int>();
      var (s1, _) := SetSpec(c, Empty(), "a", Defined(1), None, now);
      var (s2, _) := SetSpec(c, s1, "b", Defined(2), None, now);
      var (s3, _) := SetSpec(c, s2, "c", Defined(3), None, now);
      && KeysOf("", s3.store, None) == {"a", "b", "c"}
      && KeysOf("", s3.store, Some("a")) == {"a"}
      && KeysOf("", s3.store, Some("*")) == {"a", "b", "c"}
      && StatsOf(s2.store).keys == 2
  {
    SetThreePlain(now);
    ListsThree(map["a" := Defined(1), "b" := Defined(2), "c" := Defined(3)]);
    assert map["a" := Defined(1), "b" := Defined(2)].Keys == {"a", "b"};
  }

  // ----- The validation middleware -----

  /** The payloads the validation tests write: numbers and strings. */
  datatype Js = Num(n: int) | Str(s: string)

  /** `key: k => k.length < 3`. */
  function ShortKey(): string -> bool {
    (k: string) => |k| < 3
  }

  /** `value: v => typeof v === 'number'`. */
  function IsNumber(): Value<Js> -> bool {
    (v: Value<Js>) => v.Defined? && v.v.Num?
  }

  /** A default store whose one middleware is `ValidateMiddleware(options)`. */
  function Guarded(options: ValidateMiddleware.ValidateOptions<Js>, show: Value<Js> -> string): Config<Js> {
    Config("", 0, [ValidateMiddleware.Validate(options, show)], [])
  }

  /** Both checks configured: `set('a', 1)` passes the guard and `get('a')` reads 1. */
  lemma AllowsValidEntries(show: Value<Js> -> string, s: State<Js>, now: int)
    requires s.ttls == map[]
    ensures var c := Guarded(ValidateMiddleware.ValidateOptions(Some(ShortKey()), Some(IsNumber())), show);
      var (s1, r) := SetSpec(c, s, "a", Defined(Num(1)), None, now);
      var (s2, g) := GetSpec(c, s1, "a", now);
      r == Pass && g == Ok(Defined(Num(1)))
  {
    var options := ValidateMiddleware.ValidateOptions(Some(ShortKey()), Some(IsNumber()));
    var c := Guarded(options, show);
    var v := Defined(Num(1));
    ValidateMiddleware.ValidateHook(options, show, "a", v);
    var hooks := BeforeSetHooks(c.middleware);
    var trace1 := s.trace + [Call(MiddlewareBeforeSet, 0, "a", v, None)];
    assert TransformChain(hooks, MiddlewareBeforeSet, 1, "a", v, trace1) == (trace1, Ok(v));
    assert TransformChain(hooks, MiddlewareBeforeSet, 0, "a", v, s.trace) == (trace1, Ok(v));
    var s1 := s.(trace := trace1);
    assert PreSet(c, s, "a", v, None) == (s1, Ok(SetArgs(v, None)));
    var s2 := WriteEntry(s1, "a", v, None, 0, now);
    assert s2.ttls == s.ttls - {"a"};
    assert NotifyChain(AfterSetOutcomes(c.plugins, "a", v, None), Call(PluginAfterSet, 0, "a", v, None), 0, s2.trace) == (s2.trace, Pass);
    assert SetSpec(c, s, "a", v, None, now) == (s2, Pass);
    assert AfterGetHooks(c.middleware) == [None];
    assert TransformChain([None], MiddlewareAfterGet, 1, "a", v, s2.trace) == (s2.trace, Ok(v));
  }

  /** Only the key check: `set('longkey', 1)` throws a key validation error and writes nothing. */
  lemma RejectsLongKey(show: Value<Js> -> string, s: State<Js>, now: int)
    ensures var c := Guarded(ValidateMiddleware.ValidateOptions(Some(ShortKey()), None), show);
      var (s', r) := SetSpec(c, s, "longkey", Defined(Num(1)), None, now);
      && r.Fail? && "Key validation failed" <= r.error
      && s'.store == s.store && s'.ttls == s.ttls
  {
    var options := ValidateMiddleware.ValidateOptions(Some(ShortKey()), None);
    ValidateMiddleware.RejectedSetLeavesStore(options, show, "", 0, [], [], s, "longkey", Defined(Num(1)), None, now);
    assert [ValidateMiddleware.Validate(options, show)] + [] == [ValidateMiddleware.Validate(options, show)];
  }

  /** Only the value check: `set('a', 'str')` throws a value validation error and writes nothing. */
  lemma RejectsNonNumber(show: Value<Js> -> string, s: State<Js>, now: int)
    ensures var c := Guarded(ValidateMiddleware.ValidateOptions(None, Some(IsNumber())), show);
      var (s', r) := SetSpec(c, s, "a", Defined(Str("str")), None, now);
      && r.Fail? && "Value validation failed" <= r.error
      && s'.store == s.store && s'.ttls == s.ttls
  {
    var options := ValidateMiddleware.ValidateOptions(None, Some(IsNumber()));
    ValidateMiddleware.RejectedSetLeavesStore(options, show, "", 0, [], [], s, "a", Defined(Str("str")), None, now);
    assert [ValidateMiddleware.Validate(options, show)] + [] == [ValidateMiddleware.Validate(options, show)];
  }

  // ----- Hook order -----

  /** A middleware whose `beforeSet` returns the value it is given. */
  function PassThrough<V>(): Middleware<V> {
    Middleware(Some((key, value) => Ok(value)), None)
  }

  /** A plugin whose `beforeSet` keeps value and ttl and whose `afterSet` returns normally. */
  function Observer<V>(): Plugin<V> {
    Custom(PluginHooks(Some((key, value, ttl) => Ok(SetArgs(value, ttl))), Some((key, value, ttl) => Pass),
                       None, None, None, None, None))
  }

  /**
   * Middleware `[M1, M2]` and plugins `[P1, P2]`: `set` calls `M1.beforeSet`,
   * `M2.beforeSet`, `P1.beforeSet`, `P2.beforeSet`, then writes, then calls
   * `P1.afterSet`, `P2.afterSet`, each exactly once and in that order.
   */
  lemma SetHookSequence<V>(s: State<V>, key: string, value: Value<V>, ttl: Option<int>, now: int)
    ensures var c := Config("", 0, [PassThrough(), PassThrough()], [Observer(), Observer()]);
      var (s', r) := SetSpec(c, s, key, value, ttl, now);
      && r == Pass && s'.store == s.store[key := value]
      && s'.trace == s.trace + [
        Call(MiddlewareBeforeSet, 0, key, value, None), Call(MiddlewareBeforeSet, 1, key, value, None),
        Call(PluginBeforeSet, 0, key, value, ttl), Call(PluginBeforeSet, 1, key, value, ttl),
        Call(PluginAfterSet, 0, key, value, ttl), Call(PluginAfterSet, 1, key, value, ttl)]
  {
    var c: Config<V> := Config("", 0, [PassThrough(), PassThrough()], [Observer(), Observer()]);
    var hooks := BeforeSetHooks(c.middleware);
    var t0 := s.trace;
    var t1 := t0 + [Call(MiddlewareBeforeSet, 0, key, value, None)];
    var t2 := t1 + [Call(MiddlewareBeforeSet, 1, key, value, None)];
    assert TransformChain(hooks, MiddlewareBeforeSet, 2, key, value, t2) == (t2, Ok(value));
    assert TransformChain(hooks, MiddlewareBeforeSet, 1, key, value, t1) == (t2, Ok(value));
    assert TransformChain(hooks, MiddlewareBeforeSet, 0, key, value, t0) == (t2, Ok(value));
    var t3 := t2 + [Call(PluginBeforeSet, 0, key, value, ttl)];
    var t4 := t3 + [Call(PluginBeforeSet, 1, key, value, ttl)];
    assert PluginBeforeSetChain(c, 2, key, value, ttl, s.(trace := t4)) == (s.(trace := t4), Ok(SetArgs(value, ttl)));
    assert PluginBeforeSetChain(c, 1, key, value, ttl, s.(trace := t3)) == (s.(trace := t4), Ok(SetArgs(value, ttl)));
    assert PluginBeforeSetChain(c, 0, key, value, ttl, s.(trace := t2)) == (s.(trace := t4), Ok(SetArgs(value, ttl)));
    assert PreSet(c, s, key, value, ttl) == (s.(trace := t4), Ok(SetArgs(value, ttl)));
    var outcomes := AfterSetOutcomes(c.plugins, key, value, ttl);
    assert outcomes == [Some(Pass), Some(Pass)];
    var call := Call(PluginAfterSet, 0, key, value, ttl);
    var t5 := t4 + [Call(PluginAfterSet, 0, key, value, ttl)];
    var t6 := t5 + [Call(PluginAfterSet, 1, key, value, ttl)];
    assert NotifyChain(outcomes, call, 2, t6) == (t6, Pass);
    assert NotifyChain(outcomes, call, 1, t5) == (t6, Pass);
    assert NotifyChain(outcomes, call, 0, t4) == (t6, Pass);
    assert t6 == s.trace + [
        Call(MiddlewareBeforeSet, 0, key, value, None), Call(MiddlewareBeforeSet, 1, key, value, None),
        Call(PluginBeforeSet, 0, key, value, ttl), Call(PluginBeforeSet, 1, key, value, ttl),
        Call(PluginAfterSet, 0, key, value, ttl), Call(PluginAfterSet, 1, key, value, ttl)];
  }
}
