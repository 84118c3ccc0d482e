# SnapDB store engine, LRU plugin and validation middleware in Dafny

SnapDB is a small in-memory key/value store for Node.js. A store holds values
and their expiry instants in two maps. It can add a namespace prefix to every
key, applies a default ttl, and sweeps expired entries on a timer. Every
operation passes through two kinds of extensions:

- middleware, which transforms values on the way in (`beforeSet`) and on the
  way out (`afterGet`);
- plugins, which have hooks around `set`, `get`, `del` and `close`.

This project models three parts of SnapDB:

- the class `SnapDB` (`src/index.ts`);
- the LRU plugin (`src/plugins/plugin-lru.ts`), which keeps a recency list
  and calls back into the store to evict its oldest key;
- the validation middleware (`src/middleware/validate-middleware.ts`), a
  guard on keys and values applied before a write.

It proves what each operation does to the two maps, to the recency lists and
to the order of the hook calls.

Layout:

- `values.dfy` (module `Values`):
  - `Option`, `Result` and `Outcome`;
  - `Value`, which separates JavaScript `undefined` from a stored value.
- `hooks.dfy` (module `Hooks`):
  - the middleware and plugin interfaces, as optional pure functions;
  - the LRU plugin as a variant that holds its `Tracker` object;
  - the record of hook calls (`Event`), with the ordering predicates on it.
- `plugin_lru.dfy` (module `LruPlugin`):
  - the recency list as a `seq<string>` of distinct keys and its operations;
  - class `Tracker`, which holds the list and updates it in place.
- `pattern.dfy` (module `Pattern`): the `*` wildcard of `keys(pattern)`.
- `engine.dfy` (module `Engine`):
  - every store operation as a function from the state before the call to
    the state after it and the result;
  - the state is the two maps, the recency list of each LRU tracker, and
    `trace`, the hook calls made so far.
- `snapdb.dfy` (module `Store`):
  - class `SnapDB` with map fields, whose methods run the source's loops one
    hook at a time;
  - each method is proved to end exactly where the matching `Engine`
    function says.
- `chains.dfy` (module `Chains`): what each hook loop does to the state and
  to the trace.
- `properties.dfy` (module `Properties`): the store-level properties, namely
  namespacing, ttl writes, lazy expiry, the sweep, hook order, the asymmetry
  between failures before and after the write, and the preserved invariant.
- `lru_store.dfy` (module `LruStore`): a store whose one plugin is an LRU
  instance, including eviction through the store's own `del`.
- `validate_middleware.dfy` (module `ValidateMiddleware`): the guard, and what
  a rejected `set` does to the store.
- `scenarios.dfy` (module `Scenarios`): the behaviour the repository's tests
  describe, as concrete runs of the engine.

The state invariant `Engine.Consistent` has two parts:

- every expiry belongs to a stored key;
- every recency list is duplicate-free.

Every operation keeps it.

A failure in the `beforeSet` phase of `set` does not always leave the store
unchanged. An LRU plugin's `beforeSet` may already have evicted another key,
by calling `del`, when a later `beforeSet` hook throws. That eviction stays.

- `Properties.SetPrePhaseFailure` proves the general form: after an early
  failure, the store and the expiry map have only lost entries.
- When no LRU plugin is registered, the same lemma proves that both maps are
  unchanged.

Time is the parameter `now` (the source's `Date.now()`). The interval timer is
the boolean field `cleanupTimer`, and one firing of the timer is the method
`Tick`.

## Model

| member | source | states |
|---|---|---|
| LruPlugin.Without | src/plugins/plugin-lru.ts:21 | `usage.delete(key)`: exactly the other keys remain, and the list does not grow |
| LruPlugin.MoveToBack | src/plugins/plugin-lru.ts:21-22 | delete-then-set leaves `key` last and keeps every other key |
| LruPlugin.BeforeSetUsage | src/plugins/plugin-lru.ts:20-29 | eviction happens iff the touched list is longer than `maxKeys` and its front is not the empty string; the evicted key is that front, and it is removed from the list |
| LruPlugin.WithoutAbsent | src/plugins/plugin-lru.ts:40 | deleting an absent key leaves the list as it is |
| LruPlugin.WithoutAt | src/plugins/plugin-lru.ts:40 | deleting the key at position i leaves the keys before and after it in order |
| LruPlugin.WithoutDistinct | src/plugins/plugin-lru.ts:40 | deleting keeps the list duplicate-free |
| LruPlugin.WithoutLength | src/plugins/plugin-lru.ts:40 | deleting shortens the list by one exactly when the key was present |
| LruPlugin.MoveToBackSpec | src/plugins/plugin-lru.ts:21-22 | after the touch, the key occurs exactly once and last; the list stays distinct; it grows only for a new key |
| LruPlugin.AfterDelSpec | src/plugins/plugin-lru.ts:39-41 | `afterDel` removes the key and keeps the others in their relative order |
| LruPlugin.AfterGetSpec | src/plugins/plugin-lru.ts:33-38 | a read of `undefined` leaves the list alone; any other read makes the key the one most recent entry, adds no other key, and keeps the list duplicate-free |
| LruPlugin.BeforeSetSpec | src/plugins/plugin-lru.ts:24-29 | the evicted key is the oldest one and the rest keep their order; the key just set stays most recent unless it was itself evicted, which needs `maxKeys < 1` |
| LruPlugin.WithoutFront | src/plugins/plugin-lru.ts:25-27 | dropping the front of a distinct list leaves its tail, which no longer holds that key |
| LruPlugin.BeforeSetKeepsBound | src/plugins/plugin-lru.ts:24-28 | with `maxKeys >= 1`, the bound `size <= maxKeys` survives `beforeSet` unless the front key is the empty string |
| LruPlugin.EmptyKeyNeverEvicted | src/plugins/plugin-lru.ts:26 | the falsy check: with `maxKeys = 1`, an oldest key "" is kept and the list grows past the bound |
| LruPlugin.AfterGetUsage | src/plugins/plugin-lru.ts:33-38 | `afterGet` on the recency list; see `LruPlugin.AfterGetSpec` |
| LruPlugin.Tracker.constructor | src/plugins/plugin-lru.ts:12-13 | a new instance has an empty recency list |
| LruPlugin.Tracker.BeforeSet | src/plugins/plugin-lru.ts:19-32 | updates the list in place as `BeforeSetUsage` does, keeps it distinct, and returns the key the store must delete |
| LruPlugin.Tracker.AfterGet | src/plugins/plugin-lru.ts:33-38 | moves the key to the back only when the value read is not `undefined` |
| LruPlugin.Tracker.AfterDel | src/plugins/plugin-lru.ts:39-41 | removes the key from the list and keeps it distinct |
| Pattern.LiteralMatch | src/index.ts:177-180 | a pattern without `*` matches exactly the string equal to it |
| Pattern.StarMatch | src/index.ts:177-180 | the pattern `*` matches every key without a line terminator |
| Pattern.GlobMatch | src/index.ts:177-179 | `^pattern$` with `*` read as `.*`; see `Pattern.LiteralMatch` and `Pattern.StarMatch` |
| Engine.FullKey | src/index.ts:67-69 | the internal key is the namespace prefix (`namespace:`, or nothing) followed by the bare key |
| Engine.Prefix | src/index.ts:173 | the namespace prefix, `namespace:` or nothing; `FullKey` and `KeysOf` are stated on it |
| Engine.Expired | src/index.ts:120 | an entry is expired when its expiry instant is at or before `now`; `ExpiredKeys` and `Properties.LazyExpiry` are stated on it |
| Engine.HasExpiry | src/index.ts:104 | the truthiness test on `ttl` and then on `defaultTTL`; `WriteEntry` states that the key has an expiry exactly when it holds |
| Engine.Duration | src/index.ts:105 | `ttl ?? defaultTTL`, where an explicit 0 wins; `WriteEntry` and `Properties.ZeroTtlExpiresAtOnce` are stated on it |
| Engine.TransformChain | src/index.ts:92-94 | the transform loops of `set` and `get` (also lines 127-133): each present hook gets the previous output and the first error stops the loop; see `Chains.TransformChainCalls` and `Chains.TransformChainComplete` |
| Engine.NotifyChain | src/index.ts:110-112 | the loops over hooks whose result is ignored: the first throw stops the loop; see `Chains.NotifyChainCalls`, `Chains.NotifyChainOutcome` and `Chains.NotifyChainComplete` |
| Engine.PluginBeforeSetChain | src/index.ts:96-102 | the plugin `beforeSet` loop, threading value and ttl and running the evictions of LRU plugins; see `Chains.BeforeSetChainEffect` and `Chains.BeforeSetChainComplete` |
| Engine.PluginAfterGetChain | src/index.ts:134-136 | the plugin `afterGet` loop, with the LRU recency update; see `Chains.AfterGetChainEffect` and `Chains.AfterGetChainComplete` |
| Engine.PluginAfterDelChain | src/index.ts:150-152 | the plugin `afterDel` loop, with the LRU removal; see `Chains.AfterDelChainEffect` and `Chains.AfterDelChainComplete` |
| Engine.SetSpec | src/index.ts:89-113 | `set`: the pre-phase, then the write and `afterSet` when it succeeds; see `Properties.SetPrePhaseFailure`, `Properties.SetPostPhase`, `Properties.SetKeepsConsistent` and `Properties.SetHooksInOrder` |
| Engine.PreSet | src/index.ts:92-102 | the two `beforeSet` loops of `set`; see `Properties.PreSetInOrder` and `Properties.PreSetComplete` |
| Engine.CommitSet | src/index.ts:103-112 | the write and the `afterSet` loop; see `Properties.CommitSetEffect` |
| Engine.GetSpec | src/index.ts:118-138 | `get`: lazy expiry, then the three read loops; see `Properties.LazyExpiry`, `Properties.GetHooksInOrder` and `Properties.GetKeepsConsistent` |
| Engine.DelSpec | src/index.ts:143-154 | `del`: `beforeDel`, the removal, `afterDel`; see `Chains.DelEffect` and `Properties.DelHooksInOrder` |
| Engine.ExistsSpec | src/index.ts:159-167 | `exists`: lazy expiry, then membership; see `Properties.LazyExpiry` and `Properties.SweepAgreesWithLazyExpiry` |
| Engine.CloseSpec | src/index.ts:208-214 | the `onClose` loop of `close`; see `Properties.CloseNotifiesInOrder` |
| Engine.Remove | src/index.ts:148-149 | the key leaves both maps; every other key stays; recency lists and trace do not change |
| Engine.WriteEntry | src/index.ts:103-108 | the value is always written; the key has an expiry iff the ttl is truthy or the default is non-zero; the instant is `now + (ttl ?? defaultTTL)`; other keys keep their expiry |
| Engine.ExpiredKeys | src/index.ts:78-79 | exactly the keys whose expiry instant is not after `now` |
| Engine.Sweep | src/index.ts:76-84 | exactly the expired entries leave both maps; the others keep their values and instants; afterwards no instant is at or before `now`; no hook is recorded |
| Engine.KeysOf | src/index.ts:172-182 | a bare key is listed iff its namespaced form is stored and an absent or empty pattern, or a match of the pattern, admits it |
| Engine.TtlOf | src/index.ts:187-193 | a value is returned iff an expiry exists and is in the future; that value is positive and equals instant minus `now` |
| Engine.StatsOf | src/index.ts:198-203 | `keys` counts the value map, expired entries not yet dropped included; `memory` is 0 |
| Store.SnapDB.constructor | src/index.ts:52-65 | the defaults are ttl 0, period 1000, no namespace and no extensions; the maps start empty and the timer runs |
| Store.SnapDB.CleanupExpired | src/index.ts:76-84 | the loop over the expiry map ends in `Sweep` of the state before it |
| Store.SnapDB.Tick | src/index.ts:71-74 | a timer firing sweeps while the timer runs and does nothing after `Close` |
| Store.SnapDB.RunTransforms | src/index.ts:92-94 | each present hook receives the previous output, and the first error stops the loop, as `TransformChain` gives |
| Store.SnapDB.LruBeforeSet | src/plugins/plugin-lru.ts:19-29 | the tracker's list becomes `BeforeSetUsage` of the list before; nothing else in the store changes |
| Store.SnapDB.LruAfterGet | src/plugins/plugin-lru.ts:33-38 | only the tracker's list changes, as `AfterGetUsage` gives |
| Store.SnapDB.LruAfterDel | src/plugins/plugin-lru.ts:39-41 | only the tracker's list changes: the key is removed |
| Store.SnapDB.PluginsBeforeSet | src/index.ts:96-102 | the loop ends in `PluginBeforeSetChain`: values are threaded, a missing ttl keeps the incoming one, and an LRU eviction runs a full `del` |
| Store.SnapDB.BeforeSetStep | src/index.ts:97-101 | one plugin's `beforeSet`: its error ends the chain; otherwise the rest of the chain continues from what it passed on |
| Store.SnapDB.PluginsAfterSet | src/index.ts:110-112 | the `afterSet` calls happen in order up to the first failure, and no recency list changes |
| Store.SnapDB.PluginsAfterGet | src/index.ts:134-136 | the `afterGet` calls happen in order up to the first failure, as `PluginAfterGetChain` gives |
| Store.SnapDB.AfterGetStep | src/index.ts:135 | one plugin's `afterGet` either fails, ending the chain, or lets the rest of the chain continue |
| Store.SnapDB.PluginsBeforeDel | src/index.ts:145-147 | the `beforeDel` calls happen in order up to the first failure; only the trace changes |
| Store.SnapDB.PluginsAfterDel | src/index.ts:150-152 | the `afterDel` calls happen in order up to the first failure, as `PluginAfterDelChain` gives |
| Store.SnapDB.AfterDelStep | src/index.ts:151 | one plugin's `afterDel` either fails, ending the chain, or lets the rest of the chain continue |
| Store.SnapDB.Set | src/index.ts:89-113 | the new state and the outcome are `SetSpec` of the old state, and the invariant is kept |
| Store.SnapDB.Commit | src/index.ts:103-112 | the write and then the `afterSet` loop end in `CommitSet` |
| Store.SnapDB.Write | src/index.ts:103-108 | the two map assignments of `set` give `WriteEntry`, and no recency list changes |
| Store.SnapDB.Get | src/index.ts:118-138 | the new state and the result are `GetSpec` of the old state, and the invariant is kept |
| Store.SnapDB.Del | src/index.ts:143-154 | the new state and the result are `DelSpec` of the old state, and the invariant is kept |
| Store.SnapDB.Erase | src/index.ts:148-149 | the key leaves both maps; the result says whether the value map held it |
| Store.SnapDB.Exists | src/index.ts:159-167 | the new state and the result are `ExistsSpec` of the old state |
| Store.SnapDB.Keys | src/index.ts:172-182 | the listing is `KeysOf` of the value map |
| Store.SnapDB.Ttl | src/index.ts:187-193 | the remaining time is `TtlOf` of the expiry map; a function, so nothing changes |
| Store.SnapDB.GetStats | src/index.ts:198-203 | the stats are `StatsOf` of the value map |
| Store.SnapDB.Close | src/index.ts:208-214 | the timer stops first, the maps are untouched, and the `onClose` calls happen in order up to the first failure |
| Chains.TransformChainCalls | src/index.ts:92-94 | a transform loop records only calls of its own hook with the bare key, in ascending position, each on a present hook; if it succeeds, every present hook was called |
| Chains.NotifyChainCalls | src/index.ts:110-112 | a notification loop records the same call stamped with ascending positions of present hooks |
| Chains.NotifyChainOutcome | src/index.ts:110-112 | a failure is the outcome of the last hook called; a pass means every present hook was called |
| Chains.TransformChainComplete | src/index.ts:92-94 | a transform loop run from the first position only extends the trace, and when it succeeds every present hook was called |
| Chains.NotifyChainComplete | src/index.ts:110-112 | a notification loop run from the first position only extends the trace, and when it passes every present hook was called |
| Chains.AfterGetChainEffect | src/index.ts:134-136 | plugin `afterGet` leaves both maps alone, records its calls in order, and touches no recency list when the value is `undefined` |
| Chains.AfterGetChainConsistent | src/index.ts:134-136 | plugin `afterGet` keeps the invariant |
| Chains.AfterDelChainEffect | src/index.ts:150-152 | plugin `afterDel` leaves both maps alone, records its calls in order, keeps the invariant, and on success the key is in no later LRU list |
| Chains.AfterDelChainCalls | src/index.ts:150-152 | the `afterDel` calls of a whole loop are in registration order, with the bare key |
| Chains.KeyStaysForgotten | src/index.ts:150-152 | a key absent from a recency list stays absent through the `afterDel` loop |
| Chains.DelEffect | src/index.ts:143-154 | a `beforeDel` failure changes nothing but the trace; otherwise exactly the key leaves both maps; the result is whether it was stored, expired entries included |
| Chains.DelKeepsConsistent | src/index.ts:143-154 | `del` keeps the invariant |
| Chains.DelShrinks | src/index.ts:143-154 | `del` only removes entries and never alters a value or an instant |
| Chains.BeforeSetChainEffect | src/index.ts:96-102 | the plugin `beforeSet` loop only removes entries, through LRU evictions; a defined incoming ttl stays defined, so no plugin can clear it |
| Chains.BeforeSetLruEffect | src/index.ts:96-102 | the same facts when the plugin at the current position is an LRU instance |
| Chains.BeforeSetChainConsistent | src/index.ts:96-102 | the plugin `beforeSet` loop, evictions included, keeps the invariant |
| Chains.BeforeSetChainNoLru | src/index.ts:96-102 | without LRU plugins, only the trace changes, with `beforeSet` calls in ascending position and the bare key |
| Chains.AfterGetChainComplete | src/index.ts:134-136 | when the plugin `afterGet` loop passes, every plugin with `afterGet`, LRU instances included, was called |
| Chains.AfterDelChainComplete | src/index.ts:150-152 | when the plugin `afterDel` loop passes, every plugin with `afterDel`, LRU instances included, was called |
| Chains.BeforeSetChainComplete | src/index.ts:96-102 | when the plugin `beforeSet` loop succeeds, every plugin with `beforeSet` was called, LRU instances and their nested evictions included |
| Chains.BeforeSetLruComplete | src/index.ts:96-102 | the same when the plugin at the current position is an LRU instance: the eviction it runs keeps the calls already recorded |
| Properties.FullKeyInjective | src/index.ts:67-69 | within one namespace, distinct bare keys have distinct internal keys, and stripping the prefix recovers the bare key |
| Properties.OneHookInOrder | src/index.ts:92-94 | the calls of one loop are in pipeline order |
| Properties.AppendPhase | src/index.ts:89-113 | appending a later phase's loop keeps pipeline order |
| Properties.AddedSplit | src/index.ts:89-113 | the calls of two consecutive steps are those of the first followed by those of the second |
| Properties.ExtendPipeline | src/index.ts:89-113 | a later phase's calls extend an ordered prefix of the trace into an ordered whole |
| Properties.GetHooksInOrder | src/index.ts:125-137 | for an unexpired key, `get` leaves both maps alone and records only `get` hooks with the bare key: plugin `beforeGet`, then middleware `afterGet`, then plugin `afterGet`, each loop in registration order and each hook at most once; when the read succeeds, every present hook of the three loops was called |
| Properties.GetTailInOrder | src/index.ts:130-136 | the middleware `afterGet` and plugin `afterGet` phases extend the order of `beforeGet` |
| Properties.AfterGetTailInOrder | src/index.ts:134-136 | the plugin `afterGet` phase extends any order that ends before it |
| Properties.GetHooksComplete | src/index.ts:125-137 | when `get` of an unexpired key succeeds, every plugin `beforeGet`, middleware `afterGet` and plugin `afterGet` present was called |
| Properties.DelHooksInOrder | src/index.ts:145-152 | `del` records only `del` hooks with the bare key: `beforeDel`, then `afterDel`, each in registration order and at most once; when `del` succeeds, every present `beforeDel` and every plugin with `afterDel` was called |
| Properties.DelPreInOrder | src/index.ts:145-147 | the `beforeDel` calls of `del` are in registration order |
| Properties.DelHooksComplete | src/index.ts:143-154 | when `del` succeeds, every present `beforeDel` and every plugin with `afterDel` was called |
| Properties.StampedCalls | src/index.ts:110-112 | stamped notification calls are calls of one hook in ascending position |
| Properties.CommitSetEffect | src/index.ts:103-112 | after the pre-phase, the value is written, the ttl rule applies, other expiries stay, no recency list changes, and the `afterSet` calls follow in order |
| Properties.PreSetInOrder | src/index.ts:92-102 | without LRU plugins, the pre-phase changes only the trace and records only `set` hooks with the bare key: middleware `beforeSet`, then plugin `beforeSet`, each in registration order and at most once; when it succeeds, every present `beforeSet` was called |
| Properties.PreSetComplete | src/index.ts:92-102 | when the `beforeSet` phase succeeds, every middleware and plugin `beforeSet` present was called, LRU plugins included |
| Properties.SetHooksInOrder | src/index.ts:89-113 | without LRU plugins, `set` records only `set` hooks with the bare key: middleware `beforeSet`, plugin `beforeSet`, plugin `afterSet`, each loop in registration order and each hook at most once; when `set` passes, every present hook of the three loops was called |
| Properties.SetHooksComplete | src/index.ts:89-113 | when `set` passes, every `beforeSet` and every plugin `afterSet` present was called, LRU plugins included |
| Properties.SetPrePhaseFailure | src/index.ts:92-102 | a pre-phase throw fails `set` with that error, writes nothing and runs no `afterSet`; the maps only lose LRU evictions, and without LRU plugins they are unchanged |
| Properties.SetPostPhase | src/index.ts:103-112 | once the pre-phase passes, the write happens whatever `afterSet` returns, so there is no rollback; a defined ttl stays defined |
| Properties.OperationsKeepConsistent | src/index.ts:89-167 | `set`, `get`, `del`, `exists` and the sweep all keep the invariant |
| Properties.SetKeepsConsistent | src/index.ts:89-113 | `set` keeps the invariant |
| Properties.GetKeepsConsistent | src/index.ts:118-138 | `get` keeps the invariant |
| Properties.LazyExpiry | src/index.ts:120-124 | reading an expired key drops it from both maps, returns `undefined`, calls no hook, and `exists` answers false in the same way |
| Properties.SweepAgreesWithLazyExpiry | src/index.ts:76-84 | a key survives the sweep iff `exists` would report it at the same instant, and after the sweep `exists` changes nothing |
| Properties.TtlAgreesWithReads | src/index.ts:187-193 | a positive ttl means the key exists and reading it changes nothing; a present but elapsed expiry means the key reads as absent |
| Properties.TtlCountdown | src/index.ts:187-193 | the remaining time counts down with `now` and becomes null once it would reach 0 |
| Properties.SetThenGet | src/index.ts:89-138 | in a store without extensions, a written key is listed, and it reads back as written until its expiry, after which it reads as `undefined` and is dropped |
| Properties.ZeroTtlExpiresAtOnce | src/index.ts:104-105 | an explicit ttl of 0 with a non-zero default sets the expiry to `now`, so the value is gone at once |
| Properties.CloseNotifiesInOrder | src/index.ts:211-213 | `close` calls only present `onClose` hooks, in order, and all of them unless one fails |
| LruStore.LruDel | src/plugins/plugin-lru.ts:39-41 | with one LRU plugin, `del` removes the key from both maps and from the recency list, and returns whether it was stored |
| LruStore.LruPreSet | src/plugins/plugin-lru.ts:19-32 | the LRU `beforeSet` passes value and ttl unchanged and deletes the evicted key's entry from both maps |
| LruStore.LruSet | src/plugins/plugin-lru.ts:19-32 | with one LRU plugin, `set` evicts as `BeforeSetUsage` says, then writes the new entry with its expiry rule |
| LruStore.LruGet | src/plugins/plugin-lru.ts:33-38 | with one LRU plugin, `get` returns the stored value unchanged and refreshes recency only when the value is defined |
| ValidateMiddleware.Validate | src/middleware/validate-middleware.ts:12-24 | the middleware defines `beforeSet` and no `afterGet` |
| ValidateMiddleware.ValidateHook | src/middleware/validate-middleware.ts:14-22 | its `beforeSet` is the guard `BeforeSet` |
| ValidateMiddleware.BeforeSet | src/middleware/validate-middleware.ts:14-22 | the guard: the key check first, then the value check; see `ValidateMiddleware.BeforeSetSpec` |
| ValidateMiddleware.BeforeSetSpec | src/middleware/validate-middleware.ts:14-22 | success iff neither predicate rejects, and then the value is unchanged; a rejected key gives the key message even when the value is also rejected; otherwise a rejected value gives the value message |
| ValidateMiddleware.RejectedSetLeavesStore | src/middleware/validate-middleware.ts:15-20 | as the first middleware, a rejection fails `set` with its message, records only its own call, and leaves every map unchanged, so an absent key stays absent |
| Scenarios.SetStep | src/plugins/plugin-lru.ts:19-32 | one `set` with one LRU plugin: the evicted key leaves the store and the new entry is written |
| Scenarios.GetStep | src/plugins/plugin-lru.ts:33-38 | one `get` with one LRU plugin returns the stored value and updates recency |
| Scenarios.SetTwo | tests/plugins/plugin-lru.test.ts:6-8 | two sets under `maxKeys = 2` keep both keys, "a" older than "b" |
| Scenarios.SetThird | tests/plugins/plugin-lru.test.ts:9 | a third key under `maxKeys = 2` evicts the older of the two |
| Scenarios.ReadThree | tests/plugins/plugin-lru.test.ts:10-12 | three reads return what the store holds |
| Scenarios.EvictsLeastRecentlyUsed | tests/plugins/plugin-lru.test.ts:5-13 | set a, b, c with `maxKeys = 2`: "a" reads `undefined`, "b" reads 2 and "c" reads 3 |
| Scenarios.ReadRefreshesRecency | tests/plugins/plugin-lru.test.ts:15-24 | a read of "a" before setting "c" makes "b" the evicted key |
| Scenarios.SweptKeyStaysListed | src/index.ts:76-84 | the sweep calls no hook, so a swept key stays in the LRU recency list until a later eviction picks it instead of a live key |
| Scenarios.DeadKeyEvicted | src/plugins/plugin-lru.ts:24-28 | when the recency list still holds a swept key, the next eviction picks it, so both new entries stay |
| Scenarios.PlainSetStep | src/index.ts:103-108 | in a default store, `set` without ttl writes the entry and no expiry |
| Scenarios.SetThreePlain | tests/snapdb.test.ts:27-30 | three sets in a default store hold a, b and c |
| Scenarios.ListsThree | tests/snapdb.test.ts:31-33 | `keys()` and `keys('*')` list a, b and c, and `keys('a')` lists only "a" |
| Scenarios.KeysAndStats | tests/snapdb.test.ts:26-34 | after three sets, the listings are as the test expects, and `stats().keys` is 2 after the first two |
| Scenarios.AllowsValidEntries | tests/middleware/validate-middleware.test.ts:5-9 | with both predicates, `set('a', 1)` passes and `get('a')` reads 1 |
| Scenarios.RejectsLongKey | tests/middleware/validate-middleware.test.ts:11-14 | `set('longkey', 1)` fails with the key message and leaves the maps unchanged |
| Scenarios.RejectsNonNumber | tests/middleware/validate-middleware.test.ts:16-19 | `set('a', 'str')` fails with the value message and leaves the maps unchanged |
| Scenarios.SetHookSequence | src/index.ts:89-113 | with two middleware and two plugins, `set` records exactly: both middleware `beforeSet`, both plugin `beforeSet`, then both plugin `afterSet` |

## Left out

- Asynchrony: the operations are modelled as atomic sequential steps. A caller that interleaves with another call while a hook is suspended is not modelled.
- Real time: `Date.now()` is the parameter `now`. `setInterval`/`clearInterval` become the flag `cleanupTimer` and the method `Tick`. The interval length is kept only as a constant.
- `onInit`: the constructor's loop over `onInit` is not modelled. The LRU plugin's use of it, keeping the store handle, is replaced by the store running `del` on the key that `Tracker.BeforeSet` returns.
- Engine.KeysOf: returns a set. The array order of JavaScript's `Map` iteration is not modelled.
- Engine.KeysOf: only `*` is a wildcard. A pattern that contains any other regular-expression syntax character is excluded by its precondition. `*` is read as JavaScript's `.*`, which matches no line terminator.
- `stats().memory` is the constant 0 of the source and is modelled as such.
- Custom hooks are pure functions of their arguments. A custom hook that calls back into the store, or keeps state of its own, is not modelled. The one re-entrant extension is the LRU plugin, and it is modelled in full.
- One LRU plugin object registered in two stores: each `Tracker` is assumed to belong to one store.
- ValidateMiddleware.BeforeSet: the text of a rejected value, JavaScript's `${value}`, is the parameter `show`.
- Properties.SetHooksInOrder: hook order is proved only for stores without LRU plugins. An LRU eviction runs a whole `del`, whose `beforeDel`/`afterDel` calls fall between two `beforeSet` calls. Those nested calls are covered by `Chains.DelEffect` and `Properties.DelHooksInOrder`. That every present hook is called is proved with LRU plugins too, by `Properties.SetHooksComplete`.
- Properties.PreSetInOrder: likewise, order is proved only for stores without LRU plugins; `Properties.PreSetComplete` covers completeness with them.
- The other plugins (encryption, persistence, metrics) and middleware (JSON, compression, logging) are not part of this model. They rest on cryptography, file I/O, serialization and console output. In this model they are arbitrary custom hooks.
- Integer width: ttl values and instants are unbounded integers. JavaScript's floating-point numbers are not modelled.
