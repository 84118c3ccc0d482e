/**
 * The extension interfaces of src/index.ts: `SnapDBMiddleware` and
 * `SnapDBPlugin`, and the record of hook calls the model keeps.
 *
 * An optional hook method is an `Option` of a total function. A hook that
 * throws returns `Err`/`Fail` with its message. A custom hook is a pure
 * function of its arguments: it cannot call back into the store. The one
 * plugin that does, the LRU plugin, is the `Lru` variant and keeps its
 * state in a `LruPlugin.Tracker` object.
 */
module Hooks {
  import opened Values
  import opened LruPlugin

  /** What a plugin's `beforeSet` returns: `{ value, ttl? }`. */
  datatype SetArgs<V> = SetArgs(value: Value<V>, ttl: Option<int>)

  /** `SnapDBMiddleware`: value transforms on the way in and on the way out. */
  datatype Middleware<!V> = Middleware(
    beforeSet: Option<(string, Value<V>) -> Result<Value<V>>>,
    afterGet: Option<(string, Value<V>) -> Result<Value<V>>>)

  /** The hooks of a `SnapDBPlugin` other than `onInit`. */
  datatype PluginHooks<!V> = PluginHooks(
    beforeSet: Option<(string, Value<V>, Option<int>) -> Result<SetArgs<V>>>,
    afterSet: Option<(string, Value<V>, Option<int>) -> Outcome>,
    beforeGet: Option<(string, Value<V>) -> Result<Value<V>>>,
    afterGet: Option<(string, Value<V>) -> Outcome>,
    beforeDel: Option<string -> Outcome>,
    afterDel: Option<string -> Outcome>,
    onClose: Option<() -> Outcome>)

  /**
   * A registered plugin: a custom one given by its hooks, or an instance of
   * `LRUPlugin`, which defines `beforeSet`, `afterGet` and `afterDel` only.
   */
  datatype Plugin<!V> = Custom(hooks: PluginHooks<V>) | Lru(tracker: Tracker)

  /** The hook points of the pipeline. */
  datatype Hook =
    | MiddlewareBeforeSet | PluginBeforeSet | PluginAfterSet
    | PluginBeforeGet | MiddlewareAfterGet | PluginAfterGet
    | PluginBeforeDel | PluginAfterDel

  /**
   * One hook invocation: which hook, the position of its extension in the
   * registration list, and the arguments it received (`Undefined` and `None`
   * for arguments the hook does not take). `OnClose` is a plugin's `onClose`.
   */
  datatype Event<V> =
    | Call(hook: Hook, index: nat, key: string, value: Value<V>, ttl: Option<int>)
    | OnClose(index: nat)

  /**
   * Position of a hook inside the one operation it belongs to:
   * set = middleware beforeSet, plugin beforeSet, plugin afterSet;
   * get = plugin beforeGet, middleware afterGet, plugin afterGet;
   * del = plugin beforeDel, plugin afterDel.
   */
  function Phase(h: Hook): nat {
    match h
    case MiddlewareBeforeSet => 0
    case PluginBeforeSet => 1
    case PluginAfterSet => 2
    case PluginBeforeGet => 0
    case MiddlewareAfterGet => 1
    case PluginAfterGet => 2
    case PluginBeforeDel => 0
    case PluginAfterDel => 1
  }

  /** The operations that run hooks around a key. */
  datatype Operation = SetOp | GetOp | DelOp

  /** The hook points of one operation, one per phase, in phase order. */
  function HooksOf(op: Operation): (hs: seq<Hook>)
    ensures forall k :: 0 <= k < |hs| ==> Phase(hs[k]) == k
  {
    match op
    case SetOp => [MiddlewareBeforeSet, PluginBeforeSet, PluginAfterSet]
    case GetOp => [PluginBeforeGet, MiddlewareAfterGet, PluginAfterGet]
    case DelOp => [PluginBeforeDel, PluginAfterDel]
  }

  /** The plugin takes part in the `beforeSet` loop: an LRU instance, or a custom plugin with that hook. */
  predicate HasBeforeSet<V>(p: Plugin<V>) {
    p.Lru? || p.hooks.beforeSet.Some?
  }

  /** The plugin takes part in the `afterGet` loop. */
  predicate HasAfterGet<V>(p: Plugin<V>) {
    p.Lru? || p.hooks.afterGet.Some?
  }

  /** The plugin takes part in the `afterDel` loop. */
  predicate HasAfterDel<V>(p: Plugin<V>) {
    p.Lru? || p.hooks.afterDel.Some?
  }

  /** The record holds a call of hook `h` on the extension at position `j`. */
  ghost predicate Called<V>(evs: seq<Event<V>>, h: Hook, j: nat) {
    exists e :: e in evs && e.Call? && e.hook == h && e.index == j
  }

  /** `a` may come before `b` in one pass: an earlier phase, or the same hook on an earlier extension. */
  ghost predicate Precedes<V>(a: Event<V>, b: Event<V>) {
    a.Call? && b.Call? &&
    (if a.hook == b.hook then a.index < b.index else Phase(a.hook) < Phase(b.hook))
  }

  /** Every hook call precedes every later one: phase order, then registration order, each at most once. */
  ghost predicate InOrder<V>(evs: seq<Event<V>>) {
    forall a, b :: 0 <= a < b < |evs| ==> Precedes(evs[a], evs[b])
  }

  /** Every recorded call is of hook `h`, on an extension at position `from` or later, for `key`. */
  ghost predicate CallsOf<V>(evs: seq<Event<V>>, h: Hook, from: nat, key: string) {
    forall e :: e in evs ==> e.Call? && e.hook == h && e.index >= from && e.key == key
  }

  /** Positions strictly increase along the record: each extension at most once, in registration order. */
  ghost predicate Ascending<V>(evs: seq<Event<V>>) {
    forall a, b :: 0 <= a < b < |evs| ==> evs[a].index < evs[b].index
  }

  /** Every recorded call is `call` stamped with the position of an extension at `from` or later, in ascending order. */
  ghost predicate Stamped<V>(evs: seq<Event<V>>, call: Event<V>, from: nat) {
    && (forall j :: 0 <= j < |evs| ==> evs[j] == call.(index := evs[j].index) && evs[j].index >= from)
    && Ascending(evs)
  }

  /** No plugin is an LRU instance, so no hook re-enters the store. */
  predicate NoLru<V>(plugins: seq<Plugin<V>>) {
    forall i :: 0 <= i < |plugins| ==> plugins[i].Custom?
  }
}
