/**
 * The bounded memo table of `functools.lru_cache(maxsize=n)`.
 *
 * A table maps each key to its stored result and keeps the keys in recency
 * order, least recently used first. A hit moves its key to the end; a miss
 * that completes is admitted at the end, and when the table already holds
 * `maxsize` entries the first key (the least recently used) is evicted.
 */
module Lru {
  import opened Wrappers

  predicate Distinct<K(==)>(s: seq<K>) {
    forall i, j :: 0 <= i < j < |s| ==> s[i] != s[j]
  }

  /** `s` with `k` taken out, the other keys in their order. */
  function Without<K(==, !new)>(s: seq<K>, k: K): (r: seq<K>)
    ensures forall x :: x in r <==> x in s && x != k
    ensures Distinct(s) ==> Distinct(r)
    ensures Distinct(s) && k in s ==> |r| == |s| - 1
    ensures k !in s ==> r == s
  {
    if s == [] then []
    else if s[0] == k then Without(s[1..], k)
    else
      var rest := Without(s[1..], k);
      assert Distinct(s) ==> s[0] !in s[1..];
      assert Distinct(s) ==> forall i :: 0 <= i < |rest| ==> rest[i] != s[0];
      [s[0]] + rest
  }

  datatype Table<K, V> = Table(entries: map<K, V>, order: seq<K>)

  /** A well-formed table: the recency order lists every stored key once, within capacity. */
  ghost predicate Inv<K(!new), V>(t: Table<K, V>, capacity: nat) {
    && Distinct(t.order)
    && (forall k :: k in t.entries <==> k in t.order)
    && |t.order| <= capacity
  }

  /** The lookup: only an entry stored under exactly this key is returned. */
  function Lookup<K, V>(t: Table<K, V>, k: K): (r: Option<V>)
    ensures r.Some? <==> k in t.entries
    ensures r.Some? ==> r.value == t.entries[k]
  {
    if k in t.entries then Some(t.entries[k]) else None
  }

  /**
   * Taking a key out of a list of distinct keys at its position `i` closes
   * the gap: the keys before and after it keep their order.
   */
  lemma {:induction false} WithoutKeepsOrder<K(!new)>(s: seq<K>, k: K, i: nat)
    requires Distinct(s) && i < |s| && s[i] == k
    ensures Without(s, k) == s[..i] + s[i + 1..]
  {
    if i == 0 {
      assert k !in s[1..];
      assert s[..0] + s[1..] == s[1..];
    } else {
      assert s[0] != k;
      assert Distinct(s[1..]);
      WithoutKeepsOrder(s[1..], k, i - 1);
      assert s[..i] + s[i + 1..] == [s[0]] + (s[1..][..i - 1] + s[1..][i..]);
    }
  }

  /** The recency update of a hit: `k` becomes the most recently used key. */
  function Refresh<K(!new), V>(t: Table<K, V>, k: K): (r: Table<K, V>)
    ensures r.entries == t.entries
    ensures |r.order| > 0 && r.order[|r.order| - 1] == k
    ensures forall x :: x in r.order <==> x in t.order || x == k
  {
    Table(t.entries, Without(t.order, k) + [k])
  }

  /**
   * Storing the freshly computed `v` for `k`. A key already present (stored
   * meanwhile) is left alone; a full table first drops its oldest key.
   */
  function Admit<K, V>(t: Table<K, V>, capacity: nat, k: K, v: V): (r: Table<K, V>)
    requires capacity > 0
    ensures k in r.entries
    ensures k in t.entries ==> r == t
    ensures k !in t.entries ==> r.entries[k] == v && |r.order| > 0 && r.order[|r.order| - 1] == k
    ensures forall x :: x in r.entries && x != k ==> x in t.entries && r.entries[x] == t.entries[x]
  {
    if k in t.entries then t
    else if |t.order| < capacity then Table(t.entries[k := v], t.order + [k])
    else
      assert |t.order| > 0;
      Table((t.entries - {t.order[0]})[k := v], t.order[1..] + [k])
  }

  lemma {:induction false} DistinctCard<K>(s: seq<K>)
    requires Distinct(s)
    ensures |set x | x in s| == |s|
  {
    if s != [] {
      DistinctCard(s[1..]);
      assert (set x | x in s) == (set x | x in s[1..]) + {s[0]};
      assert s[0] !in (set x | x in s[1..]);
    }
  }

  /** A well-formed table never holds more entries than its capacity; its order lists them all. */
  lemma SizeBound<K(!new), V>(t: Table<K, V>, capacity: nat)
    requires Inv(t, capacity)
    ensures |t.entries| == |t.order| <= capacity
  {
    DistinctCard(t.order);
    assert t.entries.Keys == set x | x in t.order;
  }

  lemma RefreshKeepsInv<K(!new), V>(t: Table<K, V>, capacity: nat, k: K)
    requires Inv(t, capacity) && k in t.entries
    ensures Inv(Refresh(t, k), capacity)
    ensures Refresh(t, k).entries == t.entries
    ensures Refresh(t, k).order[|t.order| - 1] == k
    ensures forall i :: 0 <= i < |t.order| && t.order[i] == k ==>
              Refresh(t, k).order == t.order[..i] + t.order[i + 1..] + [k]
  {
    forall i | 0 <= i < |t.order| && t.order[i] == k
      ensures Refresh(t, k).order == t.order[..i] + t.order[i + 1..] + [k]
    {
      WithoutKeepsOrder(t.order, k, i);
    }
    var r := Without(t.order, k);
    assert |r| == |t.order| - 1;
    var o := r + [k];
    forall i, j | 0 <= i < j < |o| ensures o[i] != o[j] {
      if j == |r| { assert o[i] in r; }
    }
  }

  lemma AdmitKeepsInv<K(!new), V>(t: Table<K, V>, capacity: nat, k: K, v: V)
    requires capacity > 0 && Inv(t, capacity)
    ensures Inv(Admit(t, capacity, k, v), capacity)
    ensures k in Admit(t, capacity, k, v).entries
  {
    if k !in t.entries {
      var o := Admit(t, capacity, k, v).order;
      var rest := if |t.order| < capacity then t.order else t.order[1..];
      assert o == rest + [k];
      forall i, j | 0 <= i < j < |o| ensures o[i] != o[j] {
        if j == |rest| { assert o[i] in t.order; }
      }
      var e := Admit(t, capacity, k, v).entries;
      forall x ensures x in e <==> x in o {
        if |t.order| >= capacity && x == t.order[0] {
          assert x !in t.order[1..];
        }
      }
    }
  }

  /**
   * When a new key arrives at a full table, exactly the least recently used
   * key is dropped; every other entry stays as it was.
   */
  lemma AdmitEvictsLeastRecent<K(!new), V>(t: Table<K, V>, capacity: nat, k: K, v: V)
    requires capacity > 0 && Inv(t, capacity)
    requires k !in t.entries && |t.entries| == capacity
    ensures var a := Admit(t, capacity, k, v);
            && a.entries.Keys == t.entries.Keys - {t.order[0]} + {k}
            && a.entries[k] == v
            && (forall x :: x in t.entries && x != t.order[0] ==> a.entries[x] == t.entries[x])
            && a.order == t.order[1..] + [k]
  {
    SizeBound(t, capacity);
  }

  /** Before the table is full, admitting a new key drops nothing. */
  lemma AdmitBelowCapacityKeepsAll<K(!new), V>(t: Table<K, V>, capacity: nat, k: K, v: V)
    requires capacity > 0 && Inv(t, capacity)
    requires k !in t.entries && |t.entries| < capacity
    ensures Admit(t, capacity, k, v).entries == t.entries[k := v]
    ensures Admit(t, capacity, k, v).order == t.order + [k]
  {
    SizeBound(t, capacity);
  }

  /**
   * A hit protects its key: with room for two or more entries, the next
   * admission, whatever key it brings, does not evict the key just used.
   */
  lemma RefreshedKeySurvivesNextAdmit<K(!new), V>(t: Table<K, V>, capacity: nat, k: K, k': K, v: V)
    requires capacity > 1 && Inv(t, capacity) && k in t.entries
    ensures k in Admit(Refresh(t, k), capacity, k', v).entries
  {
    RefreshKeepsInv(t, capacity, k);
    var r := Refresh(t, k);
    if k' !in r.entries && |r.order| >= capacity {
      assert r.order[0] != k by {
        assert r.order[0] != r.order[|r.order| - 1];
      }
    }
  }

  /**
   * The cache of one memoised function: its table, held in two fields that
   * every call updates in place.
   */
  class LruCache<K(==, !new), V> {
    var entries: map<K, V>
    var order: seq<K>
    const capacity: nat

    ghost function State(): Table<K, V>
      reads this
    {
      Table(entries, order)
    }

    ghost predicate Valid()
      reads this
    {
      capacity > 0 && Inv(State(), capacity)
    }

    constructor (capacity: nat)
      requires capacity > 0
      ensures Valid() && this.capacity == capacity
      ensures entries == map[] && order == []
    {
      this.capacity := capacity;
      entries := map[];
      order := [];
    }

    /** The cache probe: a hit returns the stored value and refreshes its key. */
    method Get(k: K) returns (r: Option<V>)
      requires Valid()
      modifies this
      ensures Valid()
      ensures r == Lookup(old(State()), k)
      ensures State() == if r.Some? then Refresh(old(State()), k) else old(State())
    {
      if k in entries {
        RefreshKeepsInv(State(), capacity, k);
        r := Some(entries[k]);
        order := Without(order, k) + [k];
      } else {
        r := None;
      }
    }

    /** Storing a computed value after a miss. */
    method Put(k: K, v: V)
      requires Valid()
      modifies this
      ensures Valid()
      ensures State() == Admit(old(State()), capacity, k, v)
      ensures k in entries
    {
      AdmitKeepsInv(State(), capacity, k, v);
      if k !in entries {
        if |order| < capacity {
          entries := entries[k := v];
          order := order + [k];
        } else {
          entries := (entries - {order[0]})[k := v];
          order := order[1..] + [k];
        }
      }
    }
  }
}
