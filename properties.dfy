/**
 * Properties of the store operations of src/index.ts, stated on the
 * functions of module `Engine`: namespacing, the ttl rule of `set`, the
 * asymmetry between a failure before the write and one after it, lazy
 * expiry and the sweep, the order of hook calls, and the invariant every
 * operation keeps.
 */
module Properties {
  import opened Values
  import opened Hooks
  import opened LruPlugin
  import opened Pattern
  import opened Engine
  import opened Chains

  // ----- Namespacing -----

  /**
   * Within one store two bare keys never share an entry, and the bare key
   * is recovered from the internal one by dropping the namespace prefix.
   */
  lemma FullKeyInjective(namespace: string, a: string, b: string)
    ensures FullKey(namespace, a) == FullKey(namespace, b) <==> a == b
    ensures FullKey(namespace, a)[|Prefix(namespace)|..] == a
  {
    assert FullKey(namespace, a)[|Prefix(namespace)|..] == a;
    assert FullKey(namespace, b)[|Prefix(namespace)|..] == b;
  }

  // ----- Hook order -----

  /**
   * A run of hook calls of operation `op`, all of its own hooks and with the
   * bare key `key`, in pipeline order (phase by phase, and within a phase in
   * registration order, each extension at most once), and none from a phase
   * after `upTo`.
   */
  ghost predicate Pipeline<V>(evs: seq<Event<V>>, key: string, op: Operation, upTo: nat) {
    && InOrder(evs)
    && forall e :: e in evs ==> e.Call? && e.key == key && e.hook in HooksOf(op) && Phase(e.hook) <= upTo
  }

  /** The calls of one loop form a run of its phase. */
  lemma OneHookInOrder<V>(evs: seq<Event<V>>, h: Hook, from: nat, key: string, op: Operation)
    requires CallsOf(evs, h, from, key) && Ascending(evs) && h in HooksOf(op)
    ensures Pipeline(evs, key, op, Phase(h))
  {
    forall a, b | 0 <= a < b < |evs|
      ensures Precedes(evs[a], evs[b])
    {
      assert evs[a] in evs && evs[b] in evs;
    }
  }

  /** A later loop's calls, appended to a run of earlier phases, extend the run. */
  lemma AppendPhase<V>(xs: seq<Event<V>>, ys: seq<Event<V>>, h: Hook, from: nat, key: string, op: Operation, upTo: nat)
    requires Pipeline(xs, key, op, upTo) && upTo < Phase(h) && h in HooksOf(op)
    requires CallsOf(ys, h, from, key) && Ascending(ys)
    ensures Pipeline(xs + ys, key, op, Phase(h))
  {
    OneHookInOrder(ys, h, from, key, op);
    forall a, b | 0 <= a < b < |xs + ys|
      ensures Precedes((xs + ys)[a], (xs + ys)[b])
    {
      if b < |xs| {
        assert (xs + ys)[a] == xs[a] && (xs + ys)[b] == xs[b];
      } else if a >= |xs| {
        assert (xs + ys)[a] == ys[a - |xs|] && (xs + ys)[b] == ys[b - |xs|];
      } else {
        assert (xs + ys)[a] in xs && (xs + ys)[b] in ys;
      }
    }
  }

  /** The calls added between two extensions of a trace split at the middle one. */
  lemma AddedSplit<V>(t3: seq<Event<V>>, t2: seq<Event<V>>, t1: seq<Event<V>>)
    requires Extends(t2, t1) && Extends(t3, t2)
    ensures Extends(t3, t1) && Added(t3, t1) == Added(t2, t1) + Added(t3, t2)
  {
    assert t3[..|t1|] == t3[..|t2|][..|t1|];
    assert t3[|t1|..] == t3[|t1|..|t2|] + t3[|t2|..];
    assert t3[|t1|..|t2|] == t2[|t1|..];
  }

  /** The calls of a later loop extend the run of hook calls made so far. */
  lemma ExtendPipeline<V>(t1: seq<Event<V>>, t2: seq<Event<V>>, t3: seq<Event<V>>, h: Hook, from: nat, key: string, op: Operation, upTo: nat)
    requires Extends(t2, t1) && Pipeline(Added(t2, t1), key, op, upTo) && upTo < Phase(h) && h in HooksOf(op)
    requires Extends(t3, t2) && CallsOf(Added(t3, t2), h, from, key) && Ascending(Added(t3, t2))
    ensures Extends(t3, t1) && Pipeline(Added(t3, t1), key, op, Phase(h))
  {
    AddedSplit(t3, t2, t1);
    AppendPhase(Added(t2, t1), Added(t3, t2), h, from, key, op, upTo);
  }

  // ----- Every present hook runs -----

  /** Every plugin `beforeGet`, every middleware `afterGet` and every plugin `afterGet` present was called. */
  ghost predicate AllGetHooksCalled<V>(c: Config<V>, evs: seq<Event<V>>) {
    && (forall j :: 0 <= j < |c.plugins| && c.plugins[j].Custom? && c.plugins[j].hooks.beforeGet.Some? ==> Called(evs, PluginBeforeGet, j))
    && (forall j :: 0 <= j < |c.middleware| && c.middleware[j].afterGet.Some? ==> Called(evs, MiddlewareAfterGet, j))
    && (forall j :: 0 <= j < |c.plugins| && HasAfterGet(c.plugins[j]) ==> Called(evs, PluginAfterGet, j))
  }

  /** Every plugin `beforeDel` and every plugin `afterDel` present was called. */
  ghost predicate AllDelHooksCalled<V>(c: Config<V>, evs: seq<Event<V>>) {
    && (forall j :: 0 <= j < |c.plugins| && c.plugins[j].Custom? && c.plugins[j].hooks.beforeDel.Some? ==> Called(evs, PluginBeforeDel, j))
    && (forall j :: 0 <= j < |c.plugins| && HasAfterDel(c.plugins[j]) ==> Called(evs, PluginAfterDel, j))
  }

  /** Every middleware `beforeSet` and every plugin `beforeSet` present was called. */
  ghost predicate AllPreSetHooksCalled<V>(c: Config<V>, evs: seq<Event<V>>) {
    && (forall j :: 0 <= j < |c.middleware| && c.middleware[j].beforeSet.Some? ==> Called(evs, MiddlewareBeforeSet, j))
    && (forall j :: 0 <= j < |c.plugins| && HasBeforeSet(c.plugins[j]) ==> Called(evs, PluginBeforeSet, j))
  }

  /** Every `beforeSet` hook and every plugin `afterSet` present was called. */
  ghost predicate AllSetHooksCalled<V>(c: Config<V>, evs: seq<Event<V>>) {
    && AllPreSetHooksCalled(c, evs)
    && (forall j :: 0 <= j < |c.plugins| && c.plugins[j].Custom? && c.plugins[j].hooks.afterSet.Some? ==> Called(evs, PluginAfterSet, j))
  }

  // ----- get -----

  /**
   * `get` on an entry that has not expired: plugin `beforeGet` hooks in
   * registration order, then middleware `afterGet` hooks in registration
   * order, then plugin `afterGet` hooks in registration order, each called
   * at most once, with the bare key, and no hook of another operation;
   * neither map changes; and when the read succeeds, every present hook of
   * the three loops was called.
   */
  lemma GetHooksInOrder<V>(c: Config<V>, s: State<V>, key: string, now: int)
    requires !Expired(s.ttls, FullKey(c.namespace, key), now)
    ensures var (s', r) := GetSpec(c, s, key, now);
      && s'.store == s.store && s'.ttls == s.ttls
      && Extends(s'.trace, s.trace)
      && Pipeline(Added(s'.trace, s.trace), key, GetOp, 2)
      && (r.Ok? ==> AllGetHooksCalled(c, Added(s'.trace, s.trace)))
  {
    var fk := FullKey(c.namespace, key);
    var raw := if fk in s.store then s.store[fk] else Undefined;
    var (trace1, pre) := TransformChain(BeforeGetHooks(c.plugins), PluginBeforeGet, 0, key, raw, s.trace);
    TransformChainCalls(BeforeGetHooks(c.plugins), PluginBeforeGet, 0, key, raw, s.trace);
    OneHookInOrder(Added(trace1, s.trace), PluginBeforeGet, 0, key, GetOp);
    if pre.Ok? {
      GetTailInOrder(c, s, key, trace1, pre.value);
    }
    GetHooksComplete(c, s, key, now);
  }

  /** When `get` of an unexpired entry succeeds, every present hook of its three loops was called. */
  lemma GetHooksComplete<V>(c: Config<V>, s: State<V>, key: string, now: int)
    requires !Expired(s.ttls, FullKey(c.namespace, key), now)
    ensures var (s', r) := GetSpec(c, s, key, now);
      Extends(s'.trace, s.trace) && (r.Ok? ==> AllGetHooksCalled(c, Added(s'.trace, s.trace)))
  {
    var fk := FullKey(c.namespace, key);
    var raw := if fk in s.store then s.store[fk] else Undefined;
    var (trace1, pre) := TransformChain(BeforeGetHooks(c.plugins), PluginBeforeGet, 0, key, raw, s.trace);
    TransformChainComplete(BeforeGetHooks(c.plugins), PluginBeforeGet, key, raw, s.trace);
    if pre.Err? {
      return;
    }
    var (trace2, mw) := TransformChain(AfterGetHooks(c.middleware), MiddlewareAfterGet, 0, key, pre.value, trace1);
    TransformChainComplete(AfterGetHooks(c.middleware), MiddlewareAfterGet, key, pre.value, trace1);
    ExtendsTrans(trace2, trace1, s.trace);
    if mw.Err? {
      return;
    }
    var s2 := s.(trace := trace2);
    AfterGetChainComplete(c.plugins, 0, key, mw.value, s2);
    var (s3, post) := PluginAfterGetChain(c.plugins, 0, key, mw.value, s2);
    ExtendsTrans(s3.trace, trace2, s.trace);
    assert GetSpec(c, s, key, now) == (s3, if post.Fail? then Err(post.error) else Ok(mw.value));
    if post.Pass? {
      var evs := Added(s3.trace, s.trace);
      forall j | 0 <= j < |c.plugins| && c.plugins[j].Custom? && c.plugins[j].hooks.beforeGet.Some?
        ensures Called(evs, PluginBeforeGet, j)
      {
        assert BeforeGetHooks(c.plugins)[j].Some?;
        CalledWithin(s3.trace, trace1, s.trace, s.trace, PluginBeforeGet, j);
      }
      forall j | 0 <= j < |c.middleware| && c.middleware[j].afterGet.Some?
        ensures Called(evs, MiddlewareAfterGet, j)
      {
        assert AfterGetHooks(c.middleware)[j].Some?;
        CalledWithin(s3.trace, trace2, trace1, s.trace, MiddlewareAfterGet, j);
      }
      forall j | 0 <= j < |c.plugins| && HasAfterGet(c.plugins[j])
        ensures Called(evs, PluginAfterGet, j)
      {
        CalledWithin(s3.trace, s3.trace, trace2, s.trace, PluginAfterGet, j);
      }
    }
  }

  /** The part of `get` after the plugin `beforeGet` loop, for `GetHooksInOrder`. */
  lemma GetTailInOrder<V>(c: Config<V>, s: State<V>, key: string, trace1: seq<Event<V>>, v: Value<V>)
    requires Extends(trace1, s.trace) && Pipeline(Added(trace1, s.trace), key, GetOp, 0)
    ensures var mw := TransformChain(AfterGetHooks(c.middleware), MiddlewareAfterGet, 0, key, v, trace1);
      var s' := if mw.1.Err? then s.(trace := mw.0) else PluginAfterGetChain(c.plugins, 0, key, mw.1.value, s.(trace := mw.0)).0;
      && s'.store == s.store && s'.ttls == s.ttls
      && Extends(s'.trace, s.trace)
      && Pipeline(Added(s'.trace, s.trace), key, GetOp, 2)
  {
    var mw := TransformChain(AfterGetHooks(c.middleware), MiddlewareAfterGet, 0, key, v, trace1);
    TransformChainCalls(AfterGetHooks(c.middleware), MiddlewareAfterGet, 0, key, v, trace1);
    ExtendPipeline(s.trace, trace1, mw.0, MiddlewareAfterGet, 0, key, GetOp, 0);
    if mw.1.Ok? {
      AfterGetTailInOrder(c, s.(trace := mw.0), key, s.trace, mw.1.value);
    }
  }

  /** The plugin `afterGet` loop closes the run of `get`'s hook calls. */
  lemma AfterGetTailInOrder<V>(c: Config<V>, s: State<V>, key: string, trace0: seq<Event<V>>, v: Value<V>)
    requires Extends(s.trace, trace0) && Pipeline(Added(s.trace, trace0), key, GetOp, 1)
    ensures var s' := PluginAfterGetChain(c.plugins, 0, key, v, s).0;
      && s'.store == s.store && s'.ttls == s.ttls
      && Extends(s'.trace, trace0)
      && Pipeline(Added(s'.trace, trace0), key, GetOp, 2)
  {
    AfterGetChainEffect(c.plugins, 0, key, v, s);
    var s' := PluginAfterGetChain(c.plugins, 0, key, v, s).0;
    ExtendPipeline(trace0, s.trace, s'.trace, PluginAfterGet, 0, key, GetOp, 1);
  }

  // ----- del -----

  /**
   * `del`: plugin `beforeDel` hooks in registration order, then plugin
   * `afterDel` hooks in registration order, each called at most once, with
   * the bare key, and no hook of another operation; when `del` succeeds,
   * every present `beforeDel` and every plugin taking part in `afterDel`
   * was called.
   */
  lemma DelHooksInOrder<V>(c: Config<V>, s: State<V>, key: string)
    ensures var (s', r) := DelSpec(c, s, key);
      && Extends(s'.trace, s.trace)
      && Pipeline(Added(s'.trace, s.trace), key, DelOp, 1)
      && (r.Ok? ==> AllDelHooksCalled(c, Added(s'.trace, s.trace)))
  {
    var fk := FullKey(c.namespace, key);
    DelPreInOrder(c, s, key);
    DelHooksComplete(c, s, key);
    var (trace1, pre) := NotifyChain(BeforeDelOutcomes(c.plugins, key), Call(PluginBeforeDel, 0, key, Undefined, None), 0, s.trace);
    if pre.Fail? {
      assert DelSpec(c, s, key).0 == s.(trace := trace1);
      return;
    }
    var s1 := Remove(s, fk).(trace := trace1);
    AfterDelChainCalls(c.plugins, key, s1);
    var s' := PluginAfterDelChain(c.plugins, 0, key, s1).0;
    assert DelSpec(c, s, key).0 == s';
    ExtendPipeline(s.trace, trace1, s'.trace, PluginAfterDel, 0, key, DelOp, 0);
  }

  /** When `del` succeeds, every present hook of its two loops was called. */
  lemma DelHooksComplete<V>(c: Config<V>, s: State<V>, key: string)
    ensures var (s', r) := DelSpec(c, s, key);
      Extends(s'.trace, s.trace) && (r.Ok? ==> AllDelHooksCalled(c, Added(s'.trace, s.trace)))
  {
    var fk := FullKey(c.namespace, key);
    var call := Call(PluginBeforeDel, 0, key, Undefined, None);
    var (trace1, pre) := NotifyChain(BeforeDelOutcomes(c.plugins, key), call, 0, s.trace);
    NotifyChainComplete(BeforeDelOutcomes(c.plugins, key), call, s.trace);
    if pre.Fail? {
      return;
    }
    var s1 := Remove(s, fk).(trace := trace1);
    AfterDelChainComplete(c.plugins, 0, key, s1);
    var (s', post) := PluginAfterDelChain(c.plugins, 0, key, s1);
    ExtendsTrans(s'.trace, trace1, s.trace);
    assert DelSpec(c, s, key) == (s', if post.Fail? then Err(post.error) else Ok(fk in s.store));
    if post.Pass? {
      var evs := Added(s'.trace, s.trace);
      forall j | 0 <= j < |c.plugins| && c.plugins[j].Custom? && c.plugins[j].hooks.beforeDel.Some?
        ensures Called(evs, PluginBeforeDel, j)
      {
        assert BeforeDelOutcomes(c.plugins, key)[j].Some?;
        CalledWithin(s'.trace, trace1, s.trace, s.trace, PluginBeforeDel, j);
      }
      forall j | 0 <= j < |c.plugins| && HasAfterDel(c.plugins[j])
        ensures Called(evs, PluginAfterDel, j)
      {
        CalledWithin(s'.trace, s'.trace, trace1, s.trace, PluginAfterDel, j);
      }
    }
  }

  /** The `beforeDel` loop of `del` records a run of `beforeDel` calls with the bare key. */
  lemma DelPreInOrder<V>(c: Config<V>, s: State<V>, key: string)
    ensures var trace1 := NotifyChain(BeforeDelOutcomes(c.plugins, key), Call(PluginBeforeDel, 0, key, Undefined, None), 0, s.trace).0;
      Extends(trace1, s.trace) && Pipeline(Added(trace1, s.trace), key, DelOp, 0)
  {
    var call := Call(PluginBeforeDel, 0, key, Undefined, None);
    var trace1 := NotifyChain(BeforeDelOutcomes(c.plugins, key), call, 0, s.trace).0;
    NotifyChainCalls(BeforeDelOutcomes(c.plugins, key), call, 0, s.trace);
    StampedCalls(Added(trace1, s.trace), call, 0);
    OneHookInOrder(Added(trace1, s.trace), PluginBeforeDel, 0, key, DelOp);
  }

  /** Notifications stamped from one `Call` record are calls of its hook with its key. */
  lemma StampedCalls<V>(evs: seq<Event<V>>, call: Event<V>, from: nat)
    requires call.Call? && Stamped(evs, call, from)
    ensures CallsOf(evs, call.hook, from, call.key) && Ascending(evs)
  {
    forall e | e in evs ensures e.Call? && e.hook == call.hook && e.index >= from && e.key == call.key {
      var j :| 0 <= j < |evs| && evs[j] == e;
    }
  }

  // ----- set -----

  /**
   * The write and the plugin `afterSet` loop: the value is stored; the key
   * has an expiry exactly when the effective ttl is defined and non-zero or
   * the default is non-zero, at `now` plus the ttl if defined, else plus the
   * default; every other expiry stays; no recency list changes; and every
   * present `afterSet` is then called with the bare key in registration
   * order. All of this holds whatever the `afterSet` hooks return: a failure
   * there does not undo the write.
   */
  lemma CommitSetEffect<V>(c: Config<V>, s: State<V>, key: string, value: Value<V>, ttl: Option<int>, now: int)
    ensures var (s', r) := CommitSet(c, s, key, value, ttl, now);
      var fk := FullKey(c.namespace, key);
      && s'.store == s.store[fk := value]
      && (fk in s'.ttls <==> (ttl.Some? && ttl.value != 0) || c.defaultTTL != 0)
      && (fk in s'.ttls ==> s'.ttls[fk] == now + if ttl.Some? then ttl.value else c.defaultTTL)
      && (forall k :: k != fk ==> (k in s'.ttls <==> k in s.ttls) && (k in s'.ttls ==> s'.ttls[k] == s.ttls[k]))
      && s'.usage == s.usage
      && Extends(s'.trace, s.trace)
      && CallsOf(Added(s'.trace, s.trace), PluginAfterSet, 0, key)
      && Ascending(Added(s'.trace, s.trace))
  {
    var fk := FullKey(c.namespace, key);
    var s3 := WriteEntry(s, fk, value, ttl, c.defaultTTL, now);
    var call := Call(PluginAfterSet, 0, key, value, ttl);
    NotifyChainCalls(AfterSetOutcomes(c.plugins, key, value, ttl), call, 0, s3.trace);
    var t := NotifyChain(AfterSetOutcomes(c.plugins, key, value, ttl), call, 0, s3.trace).0;
    StampedCalls(Added(t, s3.trace), call, 0);
  }

  /**
   * Without LRU plugins the `beforeSet` phase changes nothing but the record
   * of calls: middleware `beforeSet` in registration order, then plugin
   * `beforeSet` in registration order, each with the bare key and no hook of
   * another operation; when the phase succeeds, every present `beforeSet`
   * was called.
   */
  lemma PreSetInOrder<V>(c: Config<V>, s: State<V>, key: string, value: Value<V>, ttl: Option<int>)
    requires NoLru(c.plugins)
    ensures var (s2, pre) := PreSet(c, s, key, value, ttl);
      && s2 == s.(trace := s2.trace)
      && Extends(s2.trace, s.trace)
      && Pipeline(Added(s2.trace, s.trace), key, SetOp, 1)
      && (pre.Ok? ==> AllPreSetHooksCalled(c, Added(s2.trace, s.trace)))
  {
    var (trace1, mw) := TransformChain(BeforeSetHooks(c.middleware), MiddlewareBeforeSet, 0, key, value, s.trace);
    TransformChainCalls(BeforeSetHooks(c.middleware), MiddlewareBeforeSet, 0, key, value, s.trace);
    OneHookInOrder(Added(trace1, s.trace), MiddlewareBeforeSet, 0, key, SetOp);
    if mw.Ok? {
      var s1 := s.(trace := trace1);
      BeforeSetChainNoLru(c, 0, key, mw.value, ttl, s1);
      var s2 := PluginBeforeSetChain(c, 0, key, mw.value, ttl, s1).0;
      ExtendPipeline(s.trace, trace1, s2.trace, PluginBeforeSet, 0, key, SetOp, 0);
    }
    PreSetComplete(c, s, key, value, ttl);
  }

  /** When the `beforeSet` phase succeeds, every middleware and plugin taking part in it was called. */
  lemma PreSetComplete<V>(c: Config<V>, s: State<V>, key: string, value: Value<V>, ttl: Option<int>)
    ensures var (s2, pre) := PreSet(c, s, key, value, ttl);
      Extends(s2.trace, s.trace) && (pre.Ok? ==> AllPreSetHooksCalled(c, Added(s2.trace, s.trace)))
  {
    var (trace1, mw) := TransformChain(BeforeSetHooks(c.middleware), MiddlewareBeforeSet, 0, key, value, s.trace);
    TransformChainComplete(BeforeSetHooks(c.middleware), MiddlewareBeforeSet, key, value, s.trace);
    if mw.Err? {
      return;
    }
    var s1 := s.(trace := trace1);
    BeforeSetChainComplete(c, 0, key, mw.value, ttl, s1);
    var (s2, pre) := PluginBeforeSetChain(c, 0, key, mw.value, ttl, s1);
    ExtendsTrans(s2.trace, trace1, s.trace);
    if pre.Ok? {
      var evs := Added(s2.trace, s.trace);
      forall j | 0 <= j < |c.middleware| && c.middleware[j].beforeSet.Some?
        ensures Called(evs, MiddlewareBeforeSet, j)
      {
        assert BeforeSetHooks(c.middleware)[j].Some?;
        CalledWithin(s2.trace, trace1, s.trace, s.trace, MiddlewareBeforeSet, j);
      }
      forall j | 0 <= j < |c.plugins| && HasBeforeSet(c.plugins[j])
        ensures Called(evs, PluginBeforeSet, j)
      {
        CalledWithin(s2.trace, s2.trace, trace1, s.trace, PluginBeforeSet, j);
      }
    }
  }

  /**
   * `set` without LRU plugins: middleware `beforeSet`, plugin `beforeSet`,
   * then plugin `afterSet`, each loop in registration order, each hook at
   * most once, with the bare key, and no hook of another operation; when
   * `set` succeeds, every present hook of the three loops was called.
   */
  lemma SetHooksInOrder<V>(c: Config<V>, s: State<V>, key: string, value: Value<V>, ttl: Option<int>, now: int)
    requires NoLru(c.plugins)
    ensures var (s', r) := SetSpec(c, s, key, value, ttl, now);
      && Extends(s'.trace, s.trace)
      && Pipeline(Added(s'.trace, s.trace), key, SetOp, 2)
      && (r.Pass? ==> AllSetHooksCalled(c, Added(s'.trace, s.trace)))
  {
    PreSetInOrder(c, s, key, value, ttl);
    var (s2, pre) := PreSet(c, s, key, value, ttl);
    if pre.Ok? {
      CommitSetEffect(c, s2, key, pre.value.value, pre.value.ttl, now);
      var s' := CommitSet(c, s2, key, pre.value.value, pre.value.ttl, now).0;
      ExtendPipeline(s.trace, s2.trace, s'.trace, PluginAfterSet, 0, key, SetOp, 1);
    }
    SetHooksComplete(c, s, key, value, ttl, now);
  }

  /**
   * When `set` succeeds, every present hook of its three loops was called;
   * this holds with LRU plugins too, whose evictions run between them.
   */
  lemma SetHooksComplete<V>(c: Config<V>, s: State<V>, key: string, value: Value<V>, ttl: Option<int>, now: int)
    ensures var (s', r) := SetSpec(c, s, key, value, ttl, now);
      Extends(s'.trace, s.trace) && (r.Pass? ==> AllSetHooksCalled(c, Added(s'.trace, s.trace)))
  {
    PreSetComplete(c, s, key, value, ttl);
    var (s2, pre) := PreSet(c, s, key, value, ttl);
    if pre.Err? {
      return;
    }
    var v, t := pre.value.value, pre.value.ttl;
    var s3 := WriteEntry(s2, FullKey(c.namespace, key), v, t, c.defaultTTL, now);
    var call := Call(PluginAfterSet, 0, key, v, t);
    NotifyChainComplete(AfterSetOutcomes(c.plugins, key, v, t), call, s3.trace);
    var (trace4, post) := NotifyChain(AfterSetOutcomes(c.plugins, key, v, t), call, 0, s3.trace);
    ExtendsTrans(trace4, s2.trace, s.trace);
    assert SetSpec(c, s, key, value, ttl, now) == (s3.(trace := trace4), post);
    if post.Pass? {
      var pevs := Added(s2.trace, s.trace);
      var evs := Added(trace4, s.trace);
      forall j | 0 <= j < |c.middleware| && c.middleware[j].beforeSet.Some?
        ensures Called(evs, MiddlewareBeforeSet, j)
      {
        assert Called(pevs, MiddlewareBeforeSet, j);
        CalledWithin(trace4, s2.trace, s.trace, s.trace, MiddlewareBeforeSet, j);
      }
      forall j | 0 <= j < |c.plugins| && HasBeforeSet(c.plugins[j])
        ensures Called(evs, PluginBeforeSet, j)
      {
        assert Called(pevs, PluginBeforeSet, j);
        CalledWithin(trace4, s2.trace, s.trace, s.trace, PluginBeforeSet, j);
      }
      forall j | 0 <= j < |c.plugins| && c.plugins[j].Custom? && c.plugins[j].hooks.afterSet.Some?
        ensures Called(evs, PluginAfterSet, j)
      {
        assert AfterSetOutcomes(c.plugins, key, v, t)[j].Some?;
        CalledWithin(trace4, trace4, s2.trace, s.trace, PluginAfterSet, j);
      }
    }
  }

  /**
   * A `beforeSet` hook that throws fails the whole `set`: the write does not
   * happen and no `afterSet` runs. No entry is added or altered; the only
   * entries that can be gone are those an LRU plugin evicted before the
   * failure, so without LRU plugins both maps and every recency list are
   * exactly as before.
   */
  lemma SetPrePhaseFailure<V>(c: Config<V>, s: State<V>, key: string, value: Value<V>, ttl: Option<int>, now: int)
    ensures var (s2, pre) := PreSet(c, s, key, value, ttl);
      var (s', r) := SetSpec(c, s, key, value, ttl, now);
      pre.Err? ==>
        && s' == s2 && r == Fail(pre.error)
        && (forall k :: k in s'.store ==> k in s.store && s'.store[k] == s.store[k])
        && (forall k :: k in s'.ttls ==> k in s.ttls && s'.ttls[k] == s.ttls[k])
        && (NoLru(c.plugins) ==>
              && s'.store == s.store && s'.ttls == s.ttls && s'.usage == s.usage
              && Extends(s'.trace, s.trace)
              && forall e :: e in Added(s'.trace, s.trace) ==> e.Call? && e.hook != PluginAfterSet)
  {
    var (trace1, mw) := TransformChain(BeforeSetHooks(c.middleware), MiddlewareBeforeSet, 0, key, value, s.trace);
    if mw.Ok? {
      BeforeSetChainEffect(c, 0, key, mw.value, ttl, s.(trace := trace1));
    }
    if NoLru(c.plugins) {
      PreSetInOrder(c, s, key, value, ttl);
    }
  }

  /**
   * Once every `beforeSet` hook has passed, `set` writes the value and the
   * expiry the effective ttl calls for, whatever the `afterSet` hooks then
   * return; and since a plugin that returns no ttl keeps the incoming one, a
   * ttl given to `set` is never cleared on the way.
   */
  lemma SetPostPhase<V>(c: Config<V>, s: State<V>, key: string, value: Value<V>, ttl: Option<int>, now: int)
    ensures var (s2, pre) := PreSet(c, s, key, value, ttl);
      var (s', r) := SetSpec(c, s, key, value, ttl, now);
      var fk := FullKey(c.namespace, key);
      pre.Ok? ==>
        && (ttl.Some? ==> pre.value.ttl.Some?)
        && s'.store == s2.store[fk := pre.value.value]
        && (fk in s'.ttls <==> HasExpiry(pre.value.ttl, c.defaultTTL))
        && (fk in s'.ttls ==> s'.ttls[fk] == now + Duration(pre.value.ttl, c.defaultTTL))
        && (forall k :: k != fk ==> (k in s'.ttls <==> k in s2.ttls))
  {
    var (trace1, mw) := TransformChain(BeforeSetHooks(c.middleware), MiddlewareBeforeSet, 0, key, value, s.trace);
    if mw.Ok? {
      BeforeSetChainEffect(c, 0, key, mw.value, ttl, s.(trace := trace1));
      var (s2, pre) := PreSet(c, s, key, value, ttl);
      if pre.Ok? {
        CommitSetEffect(c, s2, key, pre.value.value, pre.value.ttl, now);
      }
    }
  }

  // ----- The invariant -----

  /**
   * Every operation keeps the state consistent: an expiry only for a stored
   * key, and duplicate-free recency lists.
   */
  lemma OperationsKeepConsistent<V>(c: Config<V>, s: State<V>, key: string, value: Value<V>, ttl: Option<int>, now: int)
    requires Consistent(s)
    ensures Consistent(SetSpec(c, s, key, value, ttl, now).0)
    ensures Consistent(GetSpec(c, s, key, now).0)
    ensures Consistent(DelSpec(c, s, key).0)
    ensures Consistent(ExistsSpec(c, s, key, now).0)
    ensures Consistent(Sweep(s, now))
  {
    SetKeepsConsistent(c, s, key, value, ttl, now);
    GetKeepsConsistent(c, s, key, now);
    DelEffect(c, s, key);
  }

  lemma SetKeepsConsistent<V>(c: Config<V>, s: State<V>, key: string, value: Value<V>, ttl: Option<int>, now: int)
    requires Consistent(s)
    ensures Consistent(SetSpec(c, s, key, value, ttl, now).0)
  {
    var (trace1, mw) := TransformChain(BeforeSetHooks(c.middleware), MiddlewareBeforeSet, 0, key, value, s.trace);
    if mw.Ok? {
      BeforeSetChainConsistent(c, 0, key, mw.value, ttl, s.(trace := trace1));
      var (s2, pre) := PreSet(c, s, key, value, ttl);
      if pre.Ok? {
        CommitSetEffect(c, s2, key, pre.value.value, pre.value.ttl, now);
      }
    }
  }

  lemma GetKeepsConsistent<V>(c: Config<V>, s: State<V>, key: string, now: int)
    requires Consistent(s)
    ensures Consistent(GetSpec(c, s, key, now).0)
  {
    var fk := FullKey(c.namespace, key);
    if !Expired(s.ttls, fk, now) {
      var raw := if fk in s.store then s.store[fk] else Undefined;
      var (trace1, pre) := TransformChain(BeforeGetHooks(c.plugins), PluginBeforeGet, 0, key, raw, s.trace);
      if pre.Ok? {
        var (trace2, mw) := TransformChain(AfterGetHooks(c.middleware), MiddlewareAfterGet, 0, key, pre.value, trace1);
        if mw.Ok? {
          AfterGetChainConsistent(c.plugins, 0, key, mw.value, s.(trace := trace2));
        }
      }
    }
  }

  // ----- Expiry -----

  /**
   * Lazy expiry: `get` and `exists` on an entry whose expiry instant is not
   * after `now` drop it from both maps and report it absent, without calling
   * any hook or touching any recency list; every other entry stays.
   */
  lemma LazyExpiry<V>(c: Config<V>, s: State<V>, key: string, now: int)
    requires Expired(s.ttls, FullKey(c.namespace, key), now)
    ensures var (s', r) := GetSpec(c, s, key, now);
      var fk := FullKey(c.namespace, key);
      && r == Ok(Undefined)
      && fk !in s'.store && fk !in s'.ttls
      && s'.store == s.store - {fk} && s'.ttls == s.ttls - {fk}
      && s'.usage == s.usage && s'.trace == s.trace
    ensures ExistsSpec(c, s, key, now) == (GetSpec(c, s, key, now).0, false)
  {
  }

  /**
   * The two expiry paths agree: right after a sweep at `now`, an entry is
   * present exactly when `exists` at `now` would have reported it, and
   * `exists` on the swept state changes nothing.
   */
  lemma SweepAgreesWithLazyExpiry<V>(c: Config<V>, s: State<V>, key: string, now: int)
    ensures var swept := Sweep(s, now);
      && (FullKey(c.namespace, key) in swept.store <==> ExistsSpec(c, s, key, now).1)
      && ExistsSpec(c, swept, key, now) == (swept, ExistsSpec(c, s, key, now).1)
  {
  }

  /**
   * `ttl(key)` agrees with the reads in a consistent state: when it reports
   * time left, `exists` sees the entry and changes nothing; when the key has
   * an expiry but `ttl` reports none, the entry has expired and `get` and
   * `exists` report it absent.
   */
  lemma TtlAgreesWithReads<V>(c: Config<V>, s: State<V>, key: string, now: int)
    requires Consistent(s)
    ensures var fk := FullKey(c.namespace, key);
      var r := TtlOf(c.namespace, s.ttls, key, now);
      && (r.Some? ==> ExistsSpec(c, s, key, now) == (s, true))
      && (r.None? && fk in s.ttls ==> !ExistsSpec(c, s, key, now).1 && GetSpec(c, s, key, now).1 == Ok(Undefined))
  {
    var fk := FullKey(c.namespace, key);
    if TtlOf(c.namespace, s.ttls, key, now).None? && fk in s.ttls {
      LazyExpiry(c, s, key, now);
    }
  }

  /** The time left counts down with the clock, and runs out exactly when the expiry instant arrives. */
  lemma TtlCountdown(namespace: string, ttls: map<string, int>, key: string, now: int, d: nat)
    requires TtlOf(namespace, ttls, key, now).Some?
    ensures var left := TtlOf(namespace, ttls, key, now).value;
      TtlOf(namespace, ttls, key, now + d) == if d < left then Some(left - d) else None
  {
  }

  // ----- Round trip -----

  /**
   * With no middleware and no plugins, `get` after `set` returns the value
   * written until the expiry instant, if any, arrives, and nothing from
   * then on; the key is listed by `keys()` right after the write.
   */
  lemma SetThenGet<V>(c: Config<V>, s: State<V>, key: string, value: Value<V>, ttl: Option<int>, now: int, later: int)
    requires c.middleware == [] && c.plugins == []
    ensures var s1 := SetSpec(c, s, key, value, ttl, now).0;
      var (s2, r) := GetSpec(c, s1, key, later);
      var expired := HasExpiry(ttl, c.defaultTTL) && now + Duration(ttl, c.defaultTTL) <= later;
      && key in KeysOf(c.namespace, s1.store, None)
      && (expired ==> r == Ok(Undefined) && FullKey(c.namespace, key) !in s2.store)
      && (!expired ==> r == Ok(value) && s2 == s1)
  {
    var fk := FullKey(c.namespace, key);
    var s1 := WriteEntry(s, fk, value, ttl, c.defaultTTL, now);
    assert SetSpec(c, s, key, value, ttl, now).0 == s1;
  }

  /** An explicit ttl of 0 with a non-zero default gives an entry that has expired at once. */
  lemma ZeroTtlExpiresAtOnce<V>(c: Config<V>, s: State<V>, key: string, value: Value<V>, now: int)
    requires c.middleware == [] && c.plugins == [] && c.defaultTTL != 0
    ensures var s1 := SetSpec(c, s, key, value, Some(0), now).0;
      && s1.ttls[FullKey(c.namespace, key)] == now
      && GetSpec(c, s1, key, now).1 == Ok(Undefined)
  {
    SetThenGet(c, s, key, value, Some(0), now, now);
  }

  // ----- close -----

  /**
   * `close()` calls `onClose` of the plugins in registration order, each at
   * most once, only on plugins that define it; when none fails, every one
   * that defines it was called.
   */
  lemma CloseNotifiesInOrder<V>(ps: seq<Plugin<V>>, trace: seq<Event<V>>)
    ensures var (t, r) := CloseSpec(ps, trace);
      && Extends(t, trace)
      && Stamped(Added(t, trace), OnClose(0), 0)
      && (forall e :: e in Added(t, trace) ==> e.index < |ps| && ps[e.index].Custom? && ps[e.index].hooks.onClose.Some?)
      && (r.Pass? ==> forall j :: 0 <= j < |ps| && ps[j].Custom? && ps[j].hooks.onClose.Some? ==> OnClose(j) in Added(t, trace))
  {
    NotifyChainCalls(CloseOutcomes(ps), OnClose(0), 0, trace);
    NotifyChainOutcome(CloseOutcomes(ps), OnClose(0), 0, trace);
  }
}
