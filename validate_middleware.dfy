/**
 * `ValidateMiddleware` (src/middleware/validate-middleware.ts): a
 * middleware whose `beforeSet` checks the key, then the value, against
 * optional predicates, and passes the value through unchanged when both
 * accept. It defines no `afterGet`.
 *
 * The error text for a rejected value embeds JavaScript's rendering of the
 * value (`${value}`); that rendering is the parameter `show`.
 */
module ValidateMiddleware {
  import opened Values
  import opened Hooks
  import opened Engine

  /** `ValidateMiddlewareOptions`: both predicates are optional. */
  datatype ValidateOptions<!V> = ValidateOptions(
    key: Option<string -> bool>,
    value: Option<Value<V> -> bool>)

  /** The key passes when there is no key predicate or the predicate accepts it. */
  predicate KeyAccepted<V>(options: ValidateOptions<V>, key: string) {
    options.key.None? || options.key.value(key)
  }

  /** The value passes when there is no value predicate or the predicate accepts it. */
  predicate ValueAccepted<V>(options: ValidateOptions<V>, value: Value<V>) {
    options.value.None? || options.value.value(value)
  }

  /** The `beforeSet` hook. */
  function BeforeSet<V>(options: ValidateOptions<V>, show: Value<V> -> string, key: string, value: Value<V>): Result<Value<V>> {
    if options.key.Some? && !options.key.value(key) then Err("Key validation failed for: " + key)
    else if options.value.Some? && !options.value.value(value) then Err("Value validation failed for: " + show(value))
    else Ok(value)
  }

  /** `ValidateMiddleware(options)`: the hook above as `beforeSet`, and no `afterGet`. */
  function Validate<V>(options: ValidateOptions<V>, show: Value<V> -> string): (m: Middleware<V>)
    ensures m.beforeSet.Some? && m.afterGet.None?
  {
    Middleware(Some((key, value) => BeforeSet(options, show, key, value)), None)
  }

  /** The installed `beforeSet` hook is the guard, for every key and value. */
  lemma ValidateHook<V>(options: ValidateOptions<V>, show: Value<V> -> string, key: string, value: Value<V>)
    ensures Validate(options, show).beforeSet.value(key, value) == BeforeSet(options, show, key, value)
  {
  }

  /**
   * The guard accepts exactly when both checks pass, and then returns the
   * value unchanged; a rejected key is reported with the key, even when the
   * value would be rejected too; a rejected value with an accepted key is
   * reported with the value's rendering.
   */
  lemma BeforeSetSpec<V>(options: ValidateOptions<V>, show: Value<V> -> string, key: string, value: Value<V>)
    ensures var r := BeforeSet(options, show, key, value);
      && (r.Ok? <==> KeyAccepted(options, key) && ValueAccepted(options, value))
      && (r.Ok? ==> r.value == value)
      && (!KeyAccepted(options, key) ==> r == Err("Key validation failed for: " + key))
      && (KeyAccepted(options, key) && !ValueAccepted(options, value) ==> r == Err("Value validation failed for: " + show(value)))
  {
  }

  /**
   * A store whose first middleware is this guard: a `set` the guard rejects
   * fails with the guard's message after calling only the guard; neither
   * map, no recency list and no other hook is touched, so an absent entry
   * stays absent.
   */
  lemma RejectedSetLeavesStore<V>(options: ValidateOptions<V>, show: Value<V> -> string,
                                  namespace: string, defaultTTL: int, rest: seq<Middleware<V>>, plugins: seq<Plugin<V>>,
                                  s: State<V>, key: string, value: Value<V>, ttl: Option<int>, now: int)
    requires BeforeSet(options, show, key, value).Err?
    ensures var c := Config(namespace, defaultTTL, [Validate(options, show)] + rest, plugins);
      var (s', r) := SetSpec(c, s, key, value, ttl, now);
      && r == Fail(BeforeSet(options, show, key, value).error)
      && s' == s.(trace := s.trace + [Call(MiddlewareBeforeSet, 0, key, value, None)])
      && (FullKey(namespace, key) !in s.store ==> FullKey(namespace, key) !in s'.store)
  {
    var c := Config(namespace, defaultTTL, [Validate(options, show)] + rest, plugins);
    var hooks := BeforeSetHooks(c.middleware);
    assert hooks[0] == Validate(options, show).beforeSet;
    assert TransformChain(hooks, MiddlewareBeforeSet, 0, key, value, s.trace)
        == (s.trace + [Call(MiddlewareBeforeSet, 0, key, value, None)], BeforeSet(options, show, key, value));
  }
}
