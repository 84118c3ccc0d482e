/**
 * The recency tracker of the LRU plugin (src/plugins/plugin-lru.ts).
 *
 * The plugin keeps an insertion-ordered JavaScript `Map` whose keys are the
 * bare keys it has seen, oldest first. Here that map is a `seq<string>` of
 * distinct keys. `delete(k)` followed by `set(k)` moves `k` to the back;
 * `keys().next().value` is the front.
 *
 * The plugin's call back into the store (`db.del(oldest)`) is not made here:
 * `Tracker.BeforeSet` returns the key it dropped and the store engine runs its
 * own `del` on that key at the same point of the `set` pipeline.
 */
module LruPlugin {
  import opened Values

  /** No key occurs twice: the keys of a JavaScript `Map` are unique. */
  ghost predicate Distinct(s: seq<string>) {
    forall i, j :: 0 <= i < j < |s| ==> s[i] != s[j]
  }

  /** `usage.delete(key)`: the list without `key`, every other key in place. */
  function Without(s: seq<string>, key: string): (r: seq<string>)
    ensures forall x :: x in r <==> x in s && x != key
    ensures |r| <= |s|
  {
    if s == [] then []
    else if s[0] == key then Without(s[1..], key)
    else [s[0]] + Without(s[1..], key)
  }

  /** `usage.delete(key); usage.set(key)`: `key` becomes the most recent. */
  function MoveToBack(s: seq<string>, key: string): (r: seq<string>)
    ensures r != [] && r[|r| - 1] == key
    ensures forall x :: x in r <==> x in s || x == key
  {
    Without(s, key) + [key]
  }

  /**
   * `beforeSet(key)` on the recency list: move `key` to the back; when the
   * list is then longer than `maxKeys`, take its front key and, unless that key
   * is falsy (the empty string), drop it and report it for eviction.
   */
  function BeforeSetUsage(s: seq<string>, key: string, maxKeys: int): (r: (seq<string>, Option<string>))
    ensures var m := MoveToBack(s, key);
      r.1.Some? <==> |m| > maxKeys && m[0] != ""
    ensures var m := MoveToBack(s, key);
      r.1.Some? ==> r.1.value == m[0] && r.0 == Without(m, m[0])
    ensures r.1.None? ==> r.0 == MoveToBack(s, key)
  {
    var m := MoveToBack(s, key);
    if |m| > maxKeys && m[0] != "" then (Without(m, m[0]), Some(m[0])) else (m, None)
  }

  /** `afterGet(key, value)`: a read that found something makes `key` most recent. */
  function AfterGetUsage<V>(s: seq<string>, key: string, value: Value<V>): seq<string>
  {
    if value != Undefined then MoveToBack(s, key) else s
  }

  // ----- Properties of the recency list -----

  lemma {:induction false} WithoutAbsent(s: seq<string>, key: string)
    requires key !in s
    ensures Without(s, key) == s
  {
    if s != [] {
      WithoutAbsent(s[1..], key);
    }
  }

  /** Removing a key that sits at position `i` keeps the rest in their order. */
  lemma {:induction false} WithoutAt(s: seq<string>, i: nat)
    requires Distinct(s) && i < |s|
    ensures Without(s, s[i]) == s[..i] + s[i + 1..]
  {
    if i == 0 {
      assert s[0] !in s[1..];
      WithoutAbsent(s[1..], s[0]);
    } else {
      WithoutAt(s[1..], i - 1);
      assert s[1..][..i - 1] == s[1..i];
      assert s[1..][i..] == s[i + 1..];
      assert s[..i] == [s[0]] + s[1..i];
    }
  }

  lemma {:induction false} WithoutDistinct(s: seq<string>, key: string)
    requires Distinct(s)
    ensures Distinct(Without(s, key))
  {
    if s != [] {
      WithoutDistinct(s[1..], key);
      assert s[0] !in s[1..];
    }
  }

  /** A distinct list loses exactly one element when a present key is removed. */
  lemma WithoutLength(s: seq<string>, key: string)
    requires Distinct(s)
    ensures |Without(s, key)| == if key in s then |s| - 1 else |s|
  {
    if key in s {
      var i :| 0 <= i < |s| && s[i] == key;
      WithoutAt(s, i);
    } else {
      WithoutAbsent(s, key);
    }
  }

  /**
   * After the touch of `beforeSet` or of a successful `afterGet`, `key` occurs
   * exactly once and last, the list stays duplicate-free, and it grows by one
   * only when `key` was new.
   */
  lemma MoveToBackSpec(s: seq<string>, key: string)
    requires Distinct(s)
    ensures var r := MoveToBack(s, key);
      && Distinct(r)
      && r[|r| - 1] == key
      && (forall i :: 0 <= i < |r| - 1 ==> r[i] != key)
      && |r| == if key in s then |s| else |s| + 1
  {
    WithoutDistinct(s, key);
    WithoutLength(s, key);
  }

  /**
   * `afterGet(key, value)`: a read of `undefined` leaves the list as it is;
   * any other read makes `key` the one most recent entry, adds no other key,
   * and keeps the list duplicate-free.
   */
  lemma AfterGetSpec<V>(s: seq<string>, key: string, value: Value<V>)
    requires Distinct(s)
    ensures var r := AfterGetUsage(s, key, value);
      && Distinct(r)
      && (value == Undefined ==> r == s)
      && (value != Undefined ==>
            && r[|r| - 1] == key
            && (forall i :: 0 <= i < |r| - 1 ==> r[i] != key)
            && (forall x :: x in r <==> x in s || x == key))
  {
    if value != Undefined {
      MoveToBackSpec(s, key);
    }
  }

  /** `afterDel(key)`: `key` is gone and the others keep their relative order. */
  lemma AfterDelSpec(s: seq<string>, key: string)
    requires Distinct(s)
    ensures Distinct(Without(s, key)) && key !in Without(s, key)
    ensures forall i :: 0 <= i < |s| && s[i] == key ==> Without(s, key) == s[..i] + s[i + 1..]
  {
    WithoutDistinct(s, key);
    forall i | 0 <= i < |s| && s[i] == key
      ensures Without(s, key) == s[..i] + s[i + 1..]
    {
      WithoutAt(s, i);
    }
  }

  /**
   * `beforeSet` evicts the oldest entry, the front of the touched list, and
   * keeps the rest in order; the touched key stays most recent unless it is
   * itself the one evicted, which needs `maxKeys < 1`.
   */
  lemma BeforeSetSpec(s: seq<string>, key: string, maxKeys: int)
    requires Distinct(s)
    ensures var (u, evicted) := BeforeSetUsage(s, key, maxKeys);
      var m := MoveToBack(s, key);
      && Distinct(u)
      && (evicted.Some? ==> u == m[1..] && evicted.value !in u)
      && (evicted != Some(key) ==> u != [] && u[|u| - 1] == key)
      && (evicted == Some(key) ==> maxKeys < 1 && u == [])
  {
    var m := MoveToBack(s, key);
    MoveToBackSpec(s, key);
    if |m| > maxKeys && m[0] != "" {
      WithoutFront(m);
      if m[0] == key {
        assert |m| == 1;
      }
    }
  }

  /** Removing the front key of a duplicate-free list leaves its tail. */
  lemma WithoutFront(m: seq<string>)
    requires Distinct(m) && m != []
    ensures Without(m, m[0]) == m[1..] && m[0] !in m[1..] && Distinct(m[1..])
  {
    assert m[0] !in m[1..];
    WithoutAbsent(m[1..], m[0]);
  }

  /**
   * The size bound `|usage| <= maxKeys` survives `beforeSet` whenever
   * `maxKeys >= 1`, except when the front key after the touch is the empty
   * string, which the falsy check never evicts.
   */
  lemma BeforeSetKeepsBound(s: seq<string>, key: string, maxKeys: int)
    requires Distinct(s) && |s| <= maxKeys && maxKeys >= 1
    requires MoveToBack(s, key)[0] != ""
    ensures |BeforeSetUsage(s, key, maxKeys).0| <= maxKeys
  {
    var m := MoveToBack(s, key);
    MoveToBackSpec(s, key);
    if |m| > maxKeys {
      WithoutLength(m, m[0]);
    }
  }

  /** The falsy check in action: with `maxKeys = 1` an oldest key "" is never evicted. */
  lemma EmptyKeyNeverEvicted()
    ensures BeforeSetUsage([""], "a", 1) == (["", "a"], None)
  {
    assert MoveToBack([""], "a") == ["", "a"];
  }

  /**
   * The recency state of one LRU plugin instance: the closure-held `usage`
   * map of `LRUPlugin(options)` and the `maxKeys` option.
   */
  class Tracker {
    const maxKeys: int
    var usage: seq<string>

    ghost predicate Valid()
      reads this
    {
      Distinct(usage)
    }

    constructor (maxKeys: int)
      ensures Valid() && this.maxKeys == maxKeys && usage == []
    {
      this.maxKeys := maxKeys;
      usage := [];
    }

    /** The `beforeSet` hook; returns the key the store must now delete, if any. */
    method BeforeSet(key: string) returns (evicted: Option<string>)
      requires Valid()
      modifies this
      ensures Valid()
      ensures (usage, evicted) == BeforeSetUsage(old(usage), key, maxKeys)
    {
      BeforeSetSpec(usage, key, maxKeys);
      usage := MoveToBack(usage, key);
      evicted := None;
      if |usage| > maxKeys {
        var oldest := usage[0];
        if oldest != "" {
          usage := Without(usage, oldest);
          evicted := Some(oldest);
        }
      }
    }

    /** The `afterGet` hook. */
    method AfterGet<V>(key: string, value: Value<V>)
      requires Valid()
      modifies this
      ensures Valid()
      ensures usage == AfterGetUsage(old(usage), key, value)
    {
      if value != Undefined {
        MoveToBackSpec(usage, key);
        usage := MoveToBack(usage, key);
      }
    }

    /** The `afterDel` hook. */
    method AfterDel(key: string)
      requires Valid()
      modifies this
      ensures Valid()
      ensures usage == Without(old(usage), key)
    {
      WithoutDistinct(usage, key);
      usage := Without(usage, key);
    }
  }
}
