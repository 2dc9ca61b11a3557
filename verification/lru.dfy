/** A bounded memo table with least-recently-used eviction: the policy of
    Python's `functools.lru_cache(maxsize=...)`. A hit makes its key the most
    recently used; a new result is stored as most recently used, and when the
    table is already full the least recently used entry is dropped first.
    Exceptions are never stored: callers only `Insert` normal results. */
module Lru {

  /** `order` lists the stored keys from least to most recently used. */
  datatype Cache<K(==,!new), V> = Cache(order: seq<K>, entries: map<K, V>)

  function Empty<K(==,!new), V>(): (c: Cache<K, V>)
    ensures forall capacity: nat :: Valid(c, capacity)
    ensures c.entries == map[]
  {
    Cache([], map[])
  }

  ghost predicate Distinct<K>(s: seq<K>) {
    forall i, j :: 0 <= i < j < |s| ==> s[i] != s[j]
  }

  /** The recency list names each stored key exactly once, and the table
      holds at most `capacity` entries. */
  ghost predicate Valid<K(!new), V>(c: Cache<K, V>, capacity: nat) {
    && Distinct(c.order)
    && (forall k :: k in c.order <==> k in c.entries)
    && |c.order| <= capacity
  }

  /** `s` without `k`, the other keys in their order. */
  function Remove<K(==,!new)>(s: seq<K>, k: K): (r: seq<K>)
    ensures forall x :: x in r <==> x in s && x != k
    ensures Distinct(s) ==> Distinct(r)
    ensures Distinct(s) && k in s ==> |r| == |s| - 1
    ensures k !in s ==> r == s
  {
    if |s| == 0 then []
    else if s[0] == k then Remove(s[1..], k)
    else
      assert Distinct(s) ==> s[0] !in s[1..] by {
        if Distinct(s) {
          HeadNotInTail(s);
        }
      }
      [s[0]] + Remove(s[1..], k)
  }

  /** A cache hit on `k`: `k` becomes the most recently used key and no
      stored result changes. */
  function Touch<K(==,!new), V>(c: Cache<K, V>, k: K, ghost capacity: nat): (r: Cache<K, V>)
    requires Valid(c, capacity) && k in c.entries
    ensures Valid(r, capacity)
    ensures r.entries == c.entries
    ensures |r.order| > 0 && r.order[|r.order| - 1] == k
  {
    Cache(Remove(c.order, k) + [k], c.entries)
  }

  /** Store the result `v` for the missing key `k`, first evicting the least
      recently used entry when the table already holds `capacity` entries. */
  function Insert<K(==,!new), V>(c: Cache<K, V>, k: K, v: V, capacity: nat): (r: Cache<K, V>)
    requires capacity > 0 && Valid(c, capacity) && k !in c.entries
    ensures Valid(r, capacity)
    ensures k in r.entries && r.entries[k] == v
    ensures forall x :: x in r.entries && x != k ==> x in c.entries && r.entries[x] == c.entries[x]
    ensures |c.order| < capacity ==> forall x :: x in c.entries ==> x in r.entries
    ensures |c.order| >= capacity ==>
      forall x :: x in c.entries && x != c.order[0] ==> x in r.entries
  {
    if |c.order| >= capacity then
      var victim := c.order[0];
      HeadNotInTail(c.order);
      assert forall x :: x in c.order[1..] <==> x in c.order && x != victim by {
        forall x
          ensures x in c.order[1..] <==> x in c.order && x != victim
        {
          if x in c.order && x != victim {
            var j :| 0 <= j < |c.order| && c.order[j] == x;
            assert c.order[1..][j - 1] == x;
          }
        }
      }
      Cache(c.order[1..] + [k], (c.entries - {victim})[k := v])
    else
      Cache(c.order + [k], c.entries[k := v])
  }

  lemma HeadNotInTail<K>(s: seq<K>)
    requires Distinct(s) && |s| > 0
    ensures s[0] !in s[1..]
  {
    forall j | 0 <= j < |s[1..]|
      ensures s[1..][j] != s[0]
    {
      assert s[1..][j] == s[j + 1];
    }
  }

  ghost function Elements<K(!new)>(s: seq<K>): set<K> {
    set x | x in s
  }

  /** A list without repeats has as many elements as its set of elements. */
  lemma {:induction false} DistinctCardinality<K(!new)>(s: seq<K>)
    requires Distinct(s)
    ensures |Elements(s)| == |s|
  {
    if |s| > 0 {
      assert Distinct(s[1..]);
      DistinctCardinality(s[1..]);
      HeadNotInTail(s);
      assert Elements(s) == {s[0]} + Elements(s[1..]);
    }
  }

  /** A valid table never holds more than `capacity` entries. */
  lemma SizeBound<K(!new), V>(c: Cache<K, V>, capacity: nat)
    requires Valid(c, capacity)
    ensures |c.entries| <= capacity
  {
    DistinctCardinality(c.order);
    assert c.entries.Keys == Elements(c.order);
  }
}
