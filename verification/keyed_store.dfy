/**
  A keyed store with upsert semantics: the behaviour of
  `updateOne({ key }, { $set: value }, { upsert: true })` on a collection whose
  documents are unique per key. Both price caches are stores of this kind.
 */
module KeyedStore {
  import opened Wrappers

  /** Inserts `value` under `key`, replacing any previous value for that key wholesale. */
  function Upsert<K, V>(store: map<K, V>, key: K, value: V): (r: map<K, V>)
    ensures r.Keys == store.Keys + {key}
    ensures r[key] == value
    ensures forall k :: k in store && k != key ==> r[k] == store[k]
  {
    store[key := value]
  }

  /** Upserting the same entry twice is the same as upserting it once. */
  lemma UpsertIdempotent<K, V>(store: map<K, V>, key: K, value: V)
    ensures Upsert(Upsert(store, key, value), key, value) == Upsert(store, key, value)
  {
  }

  /** Of two upserts to the same key, the later one wins. */
  lemma UpsertLastWriteWins<K, V>(store: map<K, V>, key: K, first: V, second: V)
    ensures Upsert(Upsert(store, key, first), key, second) == Upsert(store, key, second)
  {
  }

  /** Upserts to distinct keys commute. */
  lemma UpsertCommutes<K, V>(store: map<K, V>, k1: K, v1: V, k2: K, v2: V)
    requires k1 != k2
    ensures Upsert(Upsert(store, k1, v1), k2, v2) == Upsert(Upsert(store, k2, v2), k1, v1)
  {
  }

  /** Upserts `updates` in order. */
  function UpsertAll<K, V>(store: map<K, V>, updates: seq<(K, V)>): map<K, V>
    decreases updates
  {
    if updates == [] then store else UpsertAll(Upsert(store, updates[0].0, updates[0].1), updates[1..])
  }

  /** The value of the last update to `key` in `updates`, if there is one. */
  function LastWrite<K(==), V>(updates: seq<(K, V)>, key: K): (r: Option<V>)
    ensures r.None? <==> forall i :: 0 <= i < |updates| ==> updates[i].0 != key
    ensures r.Some? ==>
      (exists i :: 0 <= i < |updates| && updates[i] == (key, r.value) &&
         forall j :: i < j < |updates| ==> updates[j].0 != key)
  {
    if updates == [] then None
    else
      var last := updates[|updates| - 1];
      if last.0 == key then Some(last.1) else LastWrite(updates[..|updates| - 1], key)
  }

  /**
    After a run of upserts, a key holds the value of its last update; a key
    that no update touches is exactly as before (present or absent).
   */
  lemma {:induction false} UpsertAllLastWrite<K, V>(store: map<K, V>, updates: seq<(K, V)>, key: K)
    ensures LastWrite(updates, key).Some? ==>
      key in UpsertAll(store, updates) && UpsertAll(store, updates)[key] == LastWrite(updates, key).value
    ensures LastWrite(updates, key).None? ==>
      (key in UpsertAll(store, updates) <==> key in store) &&
      (key in store ==> UpsertAll(store, updates)[key] == store[key])
  {
    if updates != [] {
      var n := |updates| - 1;
      UpsertAllAppend(store, updates[..n], [updates[n]]);
      assert updates[..n] + [updates[n]] == updates;
      UpsertAllLastWrite(store, updates[..n], key);
    }
  }

  /** Upserting `a` then `b` is upserting their concatenation. */
  lemma {:induction false} UpsertAllAppend<K, V>(store: map<K, V>, a: seq<(K, V)>, b: seq<(K, V)>)
    ensures UpsertAll(store, a + b) == UpsertAll(UpsertAll(store, a), b)
    decreases a
  {
    if a != [] {
      assert (a + b)[1..] == a[1..] + b;
      UpsertAllAppend(Upsert(store, a[0].0, a[0].1), a[1..], b);
    } else {
      assert a + b == b;
    }
  }

  /** The last write to a key in `x + y` is its last write in `y`, or else in `x`. */
  lemma {:induction false} LastWriteAppend<K, V>(x: seq<(K, V)>, y: seq<(K, V)>, key: K)
    ensures LastWrite(x + y, key) == if LastWrite(y, key).Some? then LastWrite(y, key) else LastWrite(x, key)
  {
    if y == [] {
      assert x + y == x;
    } else {
      var n := |y| - 1;
      assert (x + y)[..|x + y| - 1] == x + y[..n];
      LastWriteAppend(x, y[..n], key);
    }
  }

  /** Two runs of upserts that agree on every key's last write leave the same store. */
  lemma SameLastWritesSameStore<K, V>(store: map<K, V>, u: seq<(K, V)>, v: seq<(K, V)>)
    requires forall key :: LastWrite(u, key) == LastWrite(v, key)
    ensures UpsertAll(store, u) == UpsertAll(store, v)
  {
    var a, b := UpsertAll(store, u), UpsertAll(store, v);
    forall key | key in a
      ensures key in b && b[key] == a[key]
    {
      UpsertAllLastWrite(store, u, key);
      UpsertAllLastWrite(store, v, key);
    }
    forall key | key in b
      ensures key in a
    {
      UpsertAllLastWrite(store, u, key);
      UpsertAllLastWrite(store, v, key);
    }
  }

  /**
    Re-applying a stretch `b` of a run `a + b + c` after it was first applied,
    and then going on with the rest, ends in the same store as applying the run
    once: the re-applied writes are each overtaken by the same last writes.
   */
  lemma UpsertAllRedelivery<K, V>(store: map<K, V>, a: seq<(K, V)>, b: seq<(K, V)>, c: seq<(K, V)>)
    ensures UpsertAll(store, (a + b) + (b + c)) == UpsertAll(store, a + b + c)
  {
    forall key
      ensures LastWrite((a + b) + (b + c), key) == LastWrite(a + b + c, key)
    {
      LastWriteAppend(a + b, b + c, key);
      LastWriteAppend(a + b, c, key);
      LastWriteAppend(b, c, key);
      LastWriteAppend(a, b, key);
    }
    SameLastWritesSameStore(store, (a + b) + (b + c), a + b + c);
  }

  /** Replaying a run of upserts on its own result changes nothing. */
  lemma {:induction false} UpsertAllReplay<K, V>(store: map<K, V>, updates: seq<(K, V)>)
    ensures UpsertAll(UpsertAll(store, updates), updates) == UpsertAll(store, updates)
  {
    var once := UpsertAll(store, updates);
    var twice := UpsertAll(once, updates);
    forall key | key in once
      ensures key in twice && twice[key] == once[key]
    {
      UpsertAllLastWrite(store, updates, key);
      UpsertAllLastWrite(once, updates, key);
    }
    forall key | key in twice
      ensures key in once
    {
      UpsertAllLastWrite(store, updates, key);
      UpsertAllLastWrite(once, updates, key);
    }
  }
}
