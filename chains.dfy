/**
 * What one hook loop of src/index.ts does to the state: which hooks it calls,
 * in which order, with which key, and which parts of the state it leaves
 * alone. Every lemma here is about one chain function of module `Engine`
 * started at position `i`; the operation-level lemmas build on them.
 */
module Chains {
  import opened Values
  import opened Hooks
  import opened LruPlugin
  import opened Engine

  /** `t` is `trace` with `evs` appended. */
  ghost predicate Extends<V>(t: seq<Event<V>>, trace: seq<Event<V>>) {
    |trace| <= |t| && t[..|trace|] == trace
  }

  /** The calls appended to `trace`. */
  ghost function Added<V>(t: seq<Event<V>>, trace: seq<Event<V>>): seq<Event<V>>
    requires Extends(t, trace)
  {
    t[|trace|..]
  }

  /** Prepending one call at position `i` to calls at positions after `i` keeps them ascending. */
  lemma ConsAscending<V>(e: Event<V>, evs: seq<Event<V>>)
    requires Ascending(evs) && forall x :: x in evs ==> e.index < x.index
    ensures Ascending([e] + evs)
  {
    forall a, b | 0 <= a < b < |[e] + evs|
      ensures ([e] + evs)[a].index < ([e] + evs)[b].index
    {
      if a > 0 {
        assert ([e] + evs)[a] == evs[a - 1];
      }
      assert ([e] + evs)[b] == evs[b - 1];
    }
  }

  /** Splitting the calls added by a chain step into the first one and the rest. */
  lemma AddedStep<V>(t: seq<Event<V>>, trace: seq<Event<V>>, e: Event<V>)
    requires Extends(t, trace + [e])
    ensures Extends(t, trace) && Added(t, trace) == [e] + Added(t, trace + [e])
  {
    assert t[..|trace|] == t[..|trace| + 1][..|trace|];
  }

  /**
   * A transform loop (middleware `beforeSet`, plugin `beforeGet`, middleware
   * `afterGet`) calls hook `h` with the bare key, once per present slot at
   * position `i` or later, in registration order; when it succeeds, every
   * present slot was called.
   */
  lemma {:induction false} TransformChainCalls<V>(hooks: seq<Transform<V>>, h: Hook, i: nat, key: string, value: Value<V>, trace: seq<Event<V>>)
    ensures var (t, r) := TransformChain(hooks, h, i, key, value, trace);
      && Extends(t, trace)
      && CallsOf(Added(t, trace), h, i, key)
      && Ascending(Added(t, trace))
      && (forall e :: e in Added(t, trace) ==> e.index < |hooks| && hooks[e.index].Some?)
      && (r.Ok? ==> forall j :: i <= j < |hooks| && hooks[j].Some? ==> exists e :: e in Added(t, trace) && e.index == j)
    decreases |hooks| - i
  {
    if i < |hooks| {
      if hooks[i].None? {
        TransformChainCalls(hooks, h, i + 1, key, value, trace);
      } else {
        var e := Call(h, i, key, value, None);
        match hooks[i].value(key, value)
        case Err(_) =>
          assert Added(trace + [e], trace) == [e];
        case Ok(v) =>
          TransformChainCalls(hooks, h, i + 1, key, v, trace + [e]);
          var (t, r) := TransformChain(hooks, h, i + 1, key, v, trace + [e]);
          AddedStep(t, trace, e);
          ConsAscending(e, Added(t, trace + [e]));
      }
    }
  }

  /**
   * A notification loop (plugin `afterSet`, `beforeDel`, `onClose`) records
   * `call` once per present hook at position `i` or later, stamped with that
   * position, in registration order.
   */
  lemma {:induction false} NotifyChainCalls<V>(outcomes: seq<Option<Outcome>>, call: Event<V>, i: nat, trace: seq<Event<V>>)
    ensures var t := NotifyChain(outcomes, call, i, trace).0;
      && Extends(t, trace)
      && Stamped(Added(t, trace), call, i)
      && (forall e :: e in Added(t, trace) ==> e.index < |outcomes| && outcomes[e.index].Some?)
    decreases |outcomes| - i
  {
    if i < |outcomes| {
      if outcomes[i].None? {
        NotifyChainCalls(outcomes, call, i + 1, trace);
      } else {
        var e := call.(index := i);
        if outcomes[i].value.Fail? {
          assert Added(trace + [e], trace) == [e];
        } else {
          NotifyChainCalls(outcomes, call, i + 1, trace + [e]);
          var t := NotifyChain(outcomes, call, i + 1, trace + [e]).0;
          assert NotifyChain(outcomes, call, i, trace).0 == t;
          AddedStep(t, trace, e);
          ConsAscending(e, Added(t, trace + [e]));
        }
      }
    }
  }

  /**
   * A notification loop stops at the first hook that fails and reports that
   * hook's failure; when it passes, every present hook was called.
   */
  lemma {:induction false} NotifyChainOutcome<V>(outcomes: seq<Option<Outcome>>, call: Event<V>, i: nat, trace: seq<Event<V>>)
    ensures var (t, r) := NotifyChain(outcomes, call, i, trace);
      && Extends(t, trace)
      && (r.Fail? ==> |t| > |trace| && t[|t| - 1].index < |outcomes| && outcomes[t[|t| - 1].index] == Some(r))
      && (r.Pass? ==> forall j :: i <= j < |outcomes| && outcomes[j].Some? ==> call.(index := j) in Added(t, trace))
    decreases |outcomes| - i
  {
    if i < |outcomes| {
      if outcomes[i].None? {
        NotifyChainOutcome(outcomes, call, i + 1, trace);
      } else {
        var e := call.(index := i);
        if outcomes[i].value.Pass? {
          NotifyChainOutcome(outcomes, call, i + 1, trace + [e]);
          var (t, r) := NotifyChain(outcomes, call, i + 1, trace + [e]);
          assert NotifyChain(outcomes, call, i, trace) == (t, r);
          AddedStep(t, trace, e);
        }
      }
    }
  }

  /** Extending an extension of `t1` extends `t1`. */
  lemma ExtendsTrans<V>(t3: seq<Event<V>>, t2: seq<Event<V>>, t1: seq<Event<V>>)
    requires Extends(t2, t1) && Extends(t3, t2)
    ensures Extends(t3, t1)
  {
    assert t3[..|t1|] == t3[..|t2|][..|t1|];
  }

  /** A call recorded in a stretch of the trace is recorded in every longer stretch around it. */
  lemma CalledWithin<V>(t4: seq<Event<V>>, t3: seq<Event<V>>, t2: seq<Event<V>>, t1: seq<Event<V>>, h: Hook, j: nat)
    requires Extends(t2, t1) && Extends(t3, t2) && Extends(t4, t3)
    requires Called(Added(t3, t2), h, j)
    ensures Extends(t4, t1) && Called(Added(t4, t1), h, j)
  {
    ExtendsTrans(t3, t2, t1);
    ExtendsTrans(t4, t3, t1);
    var e :| e in Added(t3, t2) && e.Call? && e.hook == h && e.index == j;
    var k :| 0 <= k < |Added(t3, t2)| && Added(t3, t2)[k] == e;
    assert t4[..|t3|][|t2| + k] == e;
    assert Added(t4, t1)[|t2| - |t1| + k] == e;
  }

  /** When a transform loop succeeds, every present slot was called. */
  lemma TransformChainComplete<V>(hooks: seq<Transform<V>>, h: Hook, key: string, value: Value<V>, trace: seq<Event<V>>)
    ensures var (t, r) := TransformChain(hooks, h, 0, key, value, trace);
      && Extends(t, trace)
      && (r.Ok? ==> forall j :: 0 <= j < |hooks| && hooks[j].Some? ==> Called(Added(t, trace), h, j))
  {
    TransformChainCalls(hooks, h, 0, key, value, trace);
    var (t, r) := TransformChain(hooks, h, 0, key, value, trace);
    if r.Ok? {
      forall j | 0 <= j < |hooks| && hooks[j].Some?
        ensures Called(Added(t, trace), h, j)
      {
        var e :| e in Added(t, trace) && e.index == j;
        assert e.Call? && e.hook == h;
      }
    }
  }

  /** When a notification loop passes, every present hook was called. */
  lemma NotifyChainComplete<V>(outcomes: seq<Option<Outcome>>, call: Event<V>, trace: seq<Event<V>>)
    requires call.Call?
    ensures var (t, r) := NotifyChain(outcomes, call, 0, trace);
      && Extends(t, trace)
      && (r.Pass? ==> forall j :: 0 <= j < |outcomes| && outcomes[j].Some? ==> Called(Added(t, trace), call.hook, j))
  {
    NotifyChainOutcome(outcomes, call, 0, trace);
    var (t, r) := NotifyChain(outcomes, call, 0, trace);
    if r.Pass? {
      forall j | 0 <= j < |outcomes| && outcomes[j].Some?
        ensures Called(Added(t, trace), call.hook, j)
      {
        assert call.(index := j) in Added(t, trace);
      }
    }
  }

  /** The recency list of a tracker is duplicate-free in a consistent state. */
  lemma UsageOfDistinct<V>(s: State<V>, t: Tracker)
    requires Consistent(s)
    ensures Distinct(UsageOf(s, t))
  {
  }

  /**
   * The plugin `afterGet` loop touches neither map; it calls every present
   * `afterGet` with the bare key in registration order; and an `undefined`
   * read leaves every recency list as it was.
   */
  lemma {:induction false} AfterGetChainEffect<V>(ps: seq<Plugin<V>>, i: nat, key: string, value: Value<V>, s: State<V>)
    ensures var s' := PluginAfterGetChain(ps, i, key, value, s).0;
      && s'.store == s.store && s'.ttls == s.ttls
      && Extends(s'.trace, s.trace)
      && CallsOf(Added(s'.trace, s.trace), PluginAfterGet, i, key)
      && Ascending(Added(s'.trace, s.trace))
      && (value.Undefined? ==> forall t :: UsageOf(s', t) == UsageOf(s, t))
    decreases |ps| - i
  {
    if i < |ps| {
      var e := Call(PluginAfterGet, i, key, value, None);
      var s1 := s.(trace := s.trace + [e]);
      match ps[i]
      case Custom(h) =>
        if h.afterGet.None? {
          AfterGetChainEffect(ps, i + 1, key, value, s);
        } else if h.afterGet.value(key, value).Fail? {
          assert Added(s1.trace, s.trace) == [e];
        } else {
          AfterGetChainEffect(ps, i + 1, key, value, s1);
          var s' := PluginAfterGetChain(ps, i + 1, key, value, s1).0;
          AddedStep(s'.trace, s.trace, e);
          ConsAscending(e, Added(s'.trace, s1.trace));
        }
      case Lru(t) =>
        var s2 := s1.(usage := s1.usage[t := AfterGetUsage(UsageOf(s, t), key, value)]);
        AfterGetChainEffect(ps, i + 1, key, value, s2);
        var s' := PluginAfterGetChain(ps, i + 1, key, value, s2).0;
        AddedStep(s'.trace, s.trace, e);
        ConsAscending(e, Added(s'.trace, s2.trace));
    }
  }

  /** The plugin `afterGet` loop keeps the state consistent. */
  lemma {:induction false} AfterGetChainConsistent<V>(ps: seq<Plugin<V>>, i: nat, key: string, value: Value<V>, s: State<V>)
    requires Consistent(s)
    ensures Consistent(PluginAfterGetChain(ps, i, key, value, s).0)
    decreases |ps| - i
  {
    if i < |ps| {
      var s1 := s.(trace := s.trace + [Call(PluginAfterGet, i, key, value, None)]);
      match ps[i]
      case Custom(h) =>
        AfterGetChainConsistent(ps, i + 1, key, value, s);
        AfterGetChainConsistent(ps, i + 1, key, value, s1);
      case Lru(t) =>
        var s2 := s1.(usage := s1.usage[t := AfterGetUsage(UsageOf(s, t), key, value)]);
        UsageOfDistinct(s, t);
        MoveToBackSpec(UsageOf(s, t), key);
        assert Consistent(s2);
        AfterGetChainConsistent(ps, i + 1, key, value, s2);
    }
  }

  /**
   * The plugin `afterDel` loop touches neither map; it calls every present
   * `afterDel` with the bare key in registration order; when it completes, no
   * LRU plugin at position `i` or later remembers the key; and it keeps the
   * state consistent.
   */
  lemma {:induction false} AfterDelChainEffect<V>(ps: seq<Plugin<V>>, i: nat, key: string, s: State<V>)
    ensures var (s', r) := PluginAfterDelChain(ps, i, key, s);
      && s'.store == s.store && s'.ttls == s.ttls
      && Extends(s'.trace, s.trace)
      && CallsOf(Added(s'.trace, s.trace), PluginAfterDel, i, key)
      && Ascending(Added(s'.trace, s.trace))
      && (r.Pass? ==> forall j :: i <= j < |ps| && ps[j].Lru? ==> key !in UsageOf(s', ps[j].tracker))
      && (Consistent(s) ==> Consistent(s'))
    decreases |ps| - i
  {
    if i < |ps| {
      var e := Call(PluginAfterDel, i, key, Undefined, None);
      var s1 := s.(trace := s.trace + [e]);
      match ps[i]
      case Custom(h) =>
        if h.afterDel.None? {
          AfterDelChainEffect(ps, i + 1, key, s);
        } else if h.afterDel.value(key).Fail? {
          assert Added(s1.trace, s.trace) == [e];
        } else {
          AfterDelChainEffect(ps, i + 1, key, s1);
          var s' := PluginAfterDelChain(ps, i + 1, key, s1).0;
          AddedStep(s'.trace, s.trace, e);
          ConsAscending(e, Added(s'.trace, s1.trace));
        }
      case Lru(t) =>
        var s2 := s1.(usage := s1.usage[t := Without(UsageOf(s, t), key)]);
        AfterDelChainEffect(ps, i + 1, key, s2);
        var (s', r) := PluginAfterDelChain(ps, i + 1, key, s2);
        AddedStep(s'.trace, s.trace, e);
        ConsAscending(e, Added(s'.trace, s2.trace));
        if r.Pass? {
          KeyStaysForgotten(ps, i + 1, key, s2, t);
        }
        if Consistent(s) {
          UsageOfDistinct(s, t);
          WithoutDistinct(UsageOf(s, t), key);
          assert Consistent(s2);
        }
    }
  }

  /** The calls the plugin `afterDel` loop records: `afterDel` with the bare key, in registration order. */
  lemma AfterDelChainCalls<V>(ps: seq<Plugin<V>>, key: string, s: State<V>)
    ensures var s' := PluginAfterDelChain(ps, 0, key, s).0;
      && Extends(s'.trace, s.trace)
      && CallsOf(Added(s'.trace, s.trace), PluginAfterDel, 0, key)
      && Ascending(Added(s'.trace, s.trace))
  {
    AfterDelChainEffect(ps, 0, key, s);
  }

  /** A tracker that has forgotten `key` does not relearn it during the rest of an `afterDel` loop. */
  lemma {:induction false} KeyStaysForgotten<V>(ps: seq<Plugin<V>>, i: nat, key: string, s: State<V>, t: Tracker)
    requires key !in UsageOf(s, t)
    ensures key !in UsageOf(PluginAfterDelChain(ps, i, key, s).0, t)
    decreases |ps| - i
  {
    if i < |ps| {
      var s1 := s.(trace := s.trace + [Call(PluginAfterDel, i, key, Undefined, None)]);
      match ps[i]
      case Custom(h) =>
        KeyStaysForgotten(ps, i + 1, key, s, t);
        KeyStaysForgotten(ps, i + 1, key, s1, t);
      case Lru(t') =>
        KeyStaysForgotten(ps, i + 1, key, s1.(usage := s1.usage[t' := Without(UsageOf(s, t'), key)]), t);
    }
  }

  /**
   * `del(key)`: when a `beforeDel` hook throws, neither map changes and no
   * `afterDel` runs; otherwise the namespaced key leaves both maps, whatever
   * the `afterDel` hooks do, and nothing else leaves them. A successful call
   * reports whether the value map held the key. The state stays consistent.
   */
  lemma DelEffect<V>(c: Config<V>, s: State<V>, key: string)
    ensures var (s', r) := DelSpec(c, s, key);
      var fk := FullKey(c.namespace, key);
      var pre := NotifyChain(BeforeDelOutcomes(c.plugins, key), Call(PluginBeforeDel, 0, key, Undefined, None), 0, s.trace).1;
      && Extends(s'.trace, s.trace)
      && (pre.Fail? ==> s'.store == s.store && s'.ttls == s.ttls && s'.usage == s.usage && r == Err(pre.error))
      && (pre.Pass? ==> s'.store == s.store - {fk} && s'.ttls == s.ttls - {fk})
      && (r.Ok? ==> r.value == (fk in s.store))
      && (Consistent(s) ==> Consistent(s'))
  {
    var fk := FullKey(c.namespace, key);
    var (trace1, pre) := NotifyChain(BeforeDelOutcomes(c.plugins, key), Call(PluginBeforeDel, 0, key, Undefined, None), 0, s.trace);
    NotifyChainCalls(BeforeDelOutcomes(c.plugins, key), Call(PluginBeforeDel, 0, key, Undefined, None), 0, s.trace);
    if pre.Pass? {
      var s1 := Remove(s, fk).(trace := trace1);
      AfterDelChainEffect(c.plugins, 0, key, s1);
      var s' := PluginAfterDelChain(c.plugins, 0, key, s1).0;
      assert s'.trace[..|s.trace|] == s'.trace[..|trace1|][..|s.trace|];
    }
  }

  /** `del` keeps the state consistent. */
  lemma DelKeepsConsistent<V>(c: Config<V>, s: State<V>, key: string)
    requires Consistent(s)
    ensures Consistent(DelSpec(c, s, key).0)
  {
    DelEffect(c, s, key);
  }

  /** `del` extends the record of calls and can only take entries out of the two maps. */
  lemma DelShrinks<V>(c: Config<V>, s: State<V>, key: string)
    ensures var s' := DelSpec(c, s, key).0;
      && Extends(s'.trace, s.trace)
      && (forall k :: k in s'.store ==> k in s.store && s'.store[k] == s.store[k])
      && (forall k :: k in s'.ttls ==> k in s.ttls && s'.ttls[k] == s.ttls[k])
  {
    DelEffect(c, s, key);
  }

  /**
   * The plugin `beforeSet` loop can only take entries out of the two maps
   * (an LRU eviction runs `del`), never adds or alters one; and a plugin that
   * returns no ttl keeps the incoming one, so a ttl can be replaced but not
   * cleared.
   */
  lemma {:induction false} BeforeSetChainEffect<V>(c: Config<V>, i: nat, key: string, value: Value<V>, ttl: Option<int>, s: State<V>)
    ensures var (s', r) := PluginBeforeSetChain(c, i, key, value, ttl, s);
      && Extends(s'.trace, s.trace)
      && (forall k :: k in s'.store ==> k in s.store && s'.store[k] == s.store[k])
      && (forall k :: k in s'.ttls ==> k in s.ttls && s'.ttls[k] == s.ttls[k])
      && (r.Ok? && ttl.Some? ==> r.value.ttl.Some?)
    decreases |c.plugins| - i, 1
  {
    if i < |c.plugins| {
      var e := Call(PluginBeforeSet, i, key, value, ttl);
      var s1 := s.(trace := s.trace + [e]);
      match c.plugins[i]
      case Custom(h) =>
        if h.beforeSet.None? {
          BeforeSetChainEffect(c, i + 1, key, value, ttl, s);
        } else {
          match h.beforeSet.value(key, value, ttl)
          case Err(_) =>
          case Ok(out) =>
            var ttl' := if out.ttl.Some? then out.ttl else ttl;
            BeforeSetChainEffect(c, i + 1, key, out.value, ttl', s1);
            var s' := PluginBeforeSetChain(c, i + 1, key, out.value, ttl', s1).0;
            AddedStep(s'.trace, s.trace, e);
        }
      case Lru(t) =>
        BeforeSetLruEffect(c, i, key, value, ttl, s);
    }
  }

  /** `BeforeSetChainEffect` when the plugin at position `i` is an LRU instance. */
  lemma {:induction false} BeforeSetLruEffect<V>(c: Config<V>, i: nat, key: string, value: Value<V>, ttl: Option<int>, s: State<V>)
    requires i < |c.plugins| && c.plugins[i].Lru?
    ensures var (s', r) := PluginBeforeSetChain(c, i, key, value, ttl, s);
      && Extends(s'.trace, s.trace)
      && (forall k :: k in s'.store ==> k in s.store && s'.store[k] == s.store[k])
      && (forall k :: k in s'.ttls ==> k in s.ttls && s'.ttls[k] == s.ttls[k])
      && (r.Ok? && ttl.Some? ==> r.value.ttl.Some?)
    decreases |c.plugins| - i, 0
  {
    var t := c.plugins[i].tracker;
    var e := Call(PluginBeforeSet, i, key, value, ttl);
    var s1 := s.(trace := s.trace + [e]);
    var (u, evicted) := BeforeSetUsage(UsageOf(s, t), key, t.maxKeys);
    var s2 := s1.(usage := s1.usage[t := u]);
    if evicted.None? {
      BeforeSetChainEffect(c, i + 1, key, value, ttl, s2);
      var s' := PluginBeforeSetChain(c, i + 1, key, value, ttl, s2).0;
      AddedStep(s'.trace, s.trace, e);
    } else {
      DelShrinks(c, s2, evicted.value);
      var (s3, d) := DelSpec(c, s2, evicted.value);
      if d.Ok? {
        BeforeSetChainEffect(c, i + 1, key, value, ttl, s3);
        var s' := PluginBeforeSetChain(c, i + 1, key, value, ttl, s3).0;
        assert s'.trace[..|s.trace|] == s'.trace[..|s3.trace|][..|s2.trace|][..|s.trace|];
      } else {
        assert s3.trace[..|s.trace|] == s3.trace[..|s2.trace|][..|s.trace|];
      }
    }
  }

  /** The plugin `beforeSet` loop keeps the state consistent. */
  lemma {:induction false} BeforeSetChainConsistent<V>(c: Config<V>, i: nat, key: string, value: Value<V>, ttl: Option<int>, s: State<V>)
    requires Consistent(s)
    ensures Consistent(PluginBeforeSetChain(c, i, key, value, ttl, s).0)
    decreases |c.plugins| - i
  {
    if i < |c.plugins| {
      var s1 := s.(trace := s.trace + [Call(PluginBeforeSet, i, key, value, ttl)]);
      match c.plugins[i]
      case Custom(h) =>
        if h.beforeSet.None? {
          BeforeSetChainConsistent(c, i + 1, key, value, ttl, s);
        } else {
          match h.beforeSet.value(key, value, ttl)
          case Err(_) =>
          case Ok(out) =>
            BeforeSetChainConsistent(c, i + 1, key, out.value, if out.ttl.Some? then out.ttl else ttl, s1);
        }
      case Lru(t) =>
        var (u, evicted) := BeforeSetUsage(UsageOf(s, t), key, t.maxKeys);
        var s2 := s1.(usage := s1.usage[t := u]);
        UsageOfDistinct(s, t);
        BeforeSetSpec(UsageOf(s, t), key, t.maxKeys);
        assert Consistent(s2);
        if evicted.None? {
          BeforeSetChainConsistent(c, i + 1, key, value, ttl, s2);
        } else {
          DelKeepsConsistent(c, s2, evicted.value);
          var (s3, d) := DelSpec(c, s2, evicted.value);
          if d.Ok? {
            BeforeSetChainConsistent(c, i + 1, key, value, ttl, s3);
          }
        }
    }
  }

  /**
   * Without an LRU plugin the `beforeSet` loop changes only the record of
   * calls: it calls every present plugin `beforeSet` with the bare key, in
   * registration order.
   */
  lemma {:induction false} BeforeSetChainNoLru<V>(c: Config<V>, i: nat, key: string, value: Value<V>, ttl: Option<int>, s: State<V>)
    requires NoLru(c.plugins)
    ensures var s' := PluginBeforeSetChain(c, i, key, value, ttl, s).0;
      && s' == s.(trace := s'.trace)
      && Extends(s'.trace, s.trace)
      && CallsOf(Added(s'.trace, s.trace), PluginBeforeSet, i, key)
      && Ascending(Added(s'.trace, s.trace))
    decreases |c.plugins| - i
  {
    if i < |c.plugins| {
      var e := Call(PluginBeforeSet, i, key, value, ttl);
      var s1 := s.(trace := s.trace + [e]);
      var h := c.plugins[i].hooks;
      if h.beforeSet.None? {
        BeforeSetChainNoLru(c, i + 1, key, value, ttl, s);
      } else {
        match h.beforeSet.value(key, value, ttl)
        case Err(_) =>
          assert Added(s1.trace, s.trace) == [e];
        case Ok(out) =>
          var ttl' := if out.ttl.Some? then out.ttl else ttl;
          BeforeSetChainNoLru(c, i + 1, key, out.value, ttl', s1);
          var s' := PluginBeforeSetChain(c, i + 1, key, out.value, ttl', s1).0;
          AddedStep(s'.trace, s.trace, e);
          ConsAscending(e, Added(s'.trace, s1.trace));
      }
    }
  }

  // ----- Every present hook runs -----

  /** When the plugin `afterGet` loop passes, every plugin taking part in it was called. */
  lemma {:induction false} AfterGetChainComplete<V>(ps: seq<Plugin<V>>, i: nat, key: string, value: Value<V>, s: State<V>)
    ensures var (s', r) := PluginAfterGetChain(ps, i, key, value, s);
      && Extends(s'.trace, s.trace)
      && (r.Pass? ==> forall j :: i <= j < |ps| && HasAfterGet(ps[j]) ==> Called(Added(s'.trace, s.trace), PluginAfterGet, j))
    decreases |ps| - i
  {
    if i < |ps| {
      var e := Call(PluginAfterGet, i, key, value, None);
      var s1 := s.(trace := s.trace + [e]);
      var s2 := if ps[i].Lru? then s1.(usage := s1.usage[ps[i].tracker := AfterGetUsage(UsageOf(s, ps[i].tracker), key, value)]) else s1;
      if ps[i].Custom? && ps[i].hooks.afterGet.None? {
        AfterGetChainComplete(ps, i + 1, key, value, s);
      } else if ps[i].Lru? || ps[i].hooks.afterGet.value(key, value).Pass? {
        AfterGetChainComplete(ps, i + 1, key, value, s2);
        var (s', r) := PluginAfterGetChain(ps, i + 1, key, value, s2);
        assert PluginAfterGetChain(ps, i, key, value, s) == (s', r);
        AddedStep(s'.trace, s.trace, e);
        assert Added(s'.trace, s.trace)[0] == e;
      }
    }
  }

  /** When the plugin `afterDel` loop passes, every plugin taking part in it was called. */
  lemma {:induction false} AfterDelChainComplete<V>(ps: seq<Plugin<V>>, i: nat, key: string, s: State<V>)
    ensures var (s', r) := PluginAfterDelChain(ps, i, key, s);
      && Extends(s'.trace, s.trace)
      && (r.Pass? ==> forall j :: i <= j < |ps| && HasAfterDel(ps[j]) ==> Called(Added(s'.trace, s.trace), PluginAfterDel, j))
    decreases |ps| - i
  {
    if i < |ps| {
      var e := Call(PluginAfterDel, i, key, Undefined, None);
      var s1 := s.(trace := s.trace + [e]);
      var s2 := if ps[i].Lru? then s1.(usage := s1.usage[ps[i].tracker := Without(UsageOf(s, ps[i].tracker), key)]) else s1;
      if ps[i].Custom? && ps[i].hooks.afterDel.None? {
        AfterDelChainComplete(ps, i + 1, key, s);
      } else if ps[i].Lru? || ps[i].hooks.afterDel.value(key).Pass? {
        AfterDelChainComplete(ps, i + 1, key, s2);
        var (s', r) := PluginAfterDelChain(ps, i + 1, key, s2);
        assert PluginAfterDelChain(ps, i, key, s) == (s', r);
        AddedStep(s'.trace, s.trace, e);
        assert Added(s'.trace, s.trace)[0] == e;
      }
    }
  }

  /**
   * When the plugin `beforeSet` loop succeeds, every plugin taking part in
   * it was called, LRU instances whose eviction ran a nested `del` included.
   */
  lemma {:induction false} BeforeSetChainComplete<V>(c: Config<V>, i: nat, key: string, value: Value<V>, ttl: Option<int>, s: State<V>)
    ensures var (s', r) := PluginBeforeSetChain(c, i, key, value, ttl, s);
      && Extends(s'.trace, s.trace)
      && (r.Ok? ==> forall j :: i <= j < |c.plugins| && HasBeforeSet(c.plugins[j]) ==> Called(Added(s'.trace, s.trace), PluginBeforeSet, j))
    decreases |c.plugins| - i, 1
  {
    if i < |c.plugins| {
      match c.plugins[i]
      case Custom(h) =>
        if h.beforeSet.None? {
          BeforeSetChainComplete(c, i + 1, key, value, ttl, s);
        } else {
          var e := Call(PluginBeforeSet, i, key, value, ttl);
          var s1 := s.(trace := s.trace + [e]);
          match h.beforeSet.value(key, value, ttl)
          case Err(_) =>
            assert Added(s1.trace, s.trace) == [e];
          case Ok(out) =>
            var ttl' := if out.ttl.Some? then out.ttl else ttl;
            BeforeSetChainComplete(c, i + 1, key, out.value, ttl', s1);
            var s' := PluginBeforeSetChain(c, i + 1, key, out.value, ttl', s1).0;
            AddedStep(s'.trace, s.trace, e);
            assert Added(s'.trace, s.trace)[0] == e;
        }
      case Lru(_) =>
        BeforeSetLruComplete(c, i, key, value, ttl, s);
    }
  }

  /** `BeforeSetChainComplete` when the plugin at position `i` is an LRU instance. */
  lemma {:induction false} BeforeSetLruComplete<V>(c: Config<V>, i: nat, key: string, value: Value<V>, ttl: Option<int>, s: State<V>)
    requires i < |c.plugins| && c.plugins[i].Lru?
    ensures var (s', r) := PluginBeforeSetChain(c, i, key, value, ttl, s);
      && Extends(s'.trace, s.trace)
      && (r.Ok? ==> forall j :: i <= j < |c.plugins| && HasBeforeSet(c.plugins[j]) ==> Called(Added(s'.trace, s.trace), PluginBeforeSet, j))
    decreases |c.plugins| - i, 0
  {
    var t := c.plugins[i].tracker;
    var e := Call(PluginBeforeSet, i, key, value, ttl);
    var s1 := s.(trace := s.trace + [e]);
    var (u, evicted) := BeforeSetUsage(UsageOf(s, t), key, t.maxKeys);
    var s2 := s1.(usage := s1.usage[t := u]);
    assert Added(s2.trace, s.trace) == [e];
    var s3 := s2;
    if evicted.Some? {
      DelShrinks(c, s2, evicted.value);
      var (s4, d) := DelSpec(c, s2, evicted.value);
      ExtendsTrans(s4.trace, s2.trace, s.trace);
      if d.Err? {
        return;
      }
      s3 := s4;
    }
    assert Extends(s3.trace, s2.trace);
    BeforeSetChainComplete(c, i + 1, key, value, ttl, s3);
    var (s', r) := PluginBeforeSetChain(c, i + 1, key, value, ttl, s3);
    assert PluginBeforeSetChain(c, i, key, value, ttl, s) == (s', r);
    ExtendsTrans(s'.trace, s3.trace, s2.trace);
    ExtendsTrans(s'.trace, s2.trace, s.trace);
    if r.Ok? {
      forall j | i <= j < |c.plugins| && HasBeforeSet(c.plugins[j])
        ensures Called(Added(s'.trace, s.trace), PluginBeforeSet, j)
      {
        if j == i {
          assert e in Added(s2.trace, s.trace);
          CalledWithin(s'.trace, s2.trace, s.trace, s.trace, PluginBeforeSet, i);
        } else {
          ExtendsTrans(s3.trace, s2.trace, s.trace);
          CalledWithin(s'.trace, s'.trace, s3.trace, s.trace, PluginBeforeSet, j);
        }
      }
    }
  }
}
