/**
 * Reference counting as the egress pool and the ingress registry do it: a
 * map from key to an active count, incremented on every insert, decremented
 * on every remove, and the entry dropped when the count reaches zero.
 */
module RefCount {

  /** Every stored count is at least one. */
  ghost predicate Positive<K>(m: map<K, nat>)
  {
    forall k :: k in m ==> m[k] >= 1
  }

  /** Insert: create the entry at 0 if absent, then add one. */
  function Acquire<K>(m: map<K, nat>, k: K): map<K, nat>
  {
    m[k := (if k in m then m[k] else 0) + 1]
  }

  /**
   * Remove: an unknown key is left alone; otherwise subtract one and drop the
   * entry when the count reaches zero. The source's `usize` subtraction
   * would underflow at a stored zero, hence the precondition.
   */
  function Release<K>(m: map<K, nat>, k: K): map<K, nat>
    requires k in m ==> m[k] >= 1
  {
    if k !in m then m
    else if m[k] - 1 == 0 then m - {k}
    else m[k := m[k] - 1]
  }

  lemma AcquireEffect<K>(m: map<K, nat>, k: K)
    requires Positive(m)
    ensures Positive(Acquire(m, k))
    ensures Acquire(m, k).Keys == m.Keys + {k}
    ensures k !in m ==> Acquire(m, k)[k] == 1
    ensures k in m ==> Acquire(m, k)[k] == m[k] + 1
    ensures forall j :: j in m && j != k ==> Acquire(m, k)[j] == m[j]
  {
  }

  lemma ReleaseEffect<K>(m: map<K, nat>, k: K)
    requires Positive(m)
    ensures Positive(Release(m, k))
    ensures k !in m ==> Release(m, k) == m
    ensures k in m ==> (k in Release(m, k) <==> m[k] > 1)
    ensures k in Release(m, k) ==> Release(m, k)[k] == m[k] - 1
    ensures forall j :: j != k ==> (j in Release(m, k) <==> j in m)
    ensures forall j :: j in m && j != k ==> Release(m, k)[j] == m[j]
  {
  }

  /** An insert followed by a remove of the same key restores keys and counts. */
  lemma AcquireThenRelease<K>(m: map<K, nat>, k: K)
    requires Positive(m)
    ensures Release(Acquire(m, k), k) == m
  {
    var a := Acquire(m, k);
    var r := Release(a, k);
    if k in m {
      assert r == m[k := m[k]];
    } else {
      assert r == a - {k};
      assert r.Keys == m.Keys;
    }
  }

  /** The keys that elements of `s` map to. */
  ghost function KeysOf<T, K>(s: set<T>, key: T -> K): set<K>
  {
    set x | x in s :: key(x)
  }

  /** The elements of `s` with key `k`. */
  ghost function WithKey<T, K>(s: set<T>, key: T -> K, k: K): set<T>
  {
    set x | x in s && key(x) == k
  }

  /** For each key, how many elements of `s` carry it. */
  ghost function Tally<T, K>(s: set<T>, key: T -> K): map<K, nat>
  {
    map k | k in KeysOf(s, key) :: |WithKey(s, key, k)|
  }

  lemma {:induction false} TallyPositive<T, K>(s: set<T>, key: T -> K)
    ensures Positive(Tally(s, key))
  {
    forall k | k in Tally(s, key)
      ensures Tally(s, key)[k] >= 1
    {
      var x :| x in s && key(x) == k;
      assert x in WithKey(s, key, k);
    }
  }

  lemma KeysOfAdd<T, K>(s: set<T>, x: T, key: T -> K)
    ensures KeysOf(s + {x}, key) == KeysOf(s, key) + {key(x)}
  {
  }

  /** How many elements of `s + {x}` carry the key `k`. */
  lemma WithKeyAdd<T, K>(s: set<T>, x: T, key: T -> K, k: K)
    requires x !in s
    ensures k != key(x) ==> |WithKey(s + {x}, key, k)| == |WithKey(s, key, k)|
    ensures k == key(x) && k in KeysOf(s, key) ==> |WithKey(s + {x}, key, k)| == |WithKey(s, key, k)| + 1
    ensures k == key(x) && k !in KeysOf(s, key) ==> |WithKey(s + {x}, key, k)| == 1
  {
    if k == key(x) {
      assert WithKey(s + {x}, key, k) == WithKey(s, key, k) + {x};
      if k !in KeysOf(s, key) {
        assert WithKey(s, key, k) == {};
      }
    } else {
      assert WithKey(s + {x}, key, k) == WithKey(s, key, k);
    }
  }

  /** Adding an element acquires its key once. */
  lemma {:induction false} TallyAdd<T, K>(s: set<T>, x: T, key: T -> K)
    requires x !in s
    ensures Tally(s + {x}, key) == Acquire(Tally(s, key), key(x))
  {
    var a := Tally(s + {x}, key);
    var b := Acquire(Tally(s, key), key(x));
    KeysOfAdd(s, x, key);
    assert a.Keys == b.Keys;
    forall k | k in a
      ensures a[k] == b[k]
    {
      WithKeyAdd(s, x, key, k);
    }
  }

  /** Removing an element releases its key once. */
  lemma {:induction false} TallyRemove<T, K>(s: set<T>, x: T, key: T -> K)
    requires x in s
    ensures Positive(Tally(s, key))
    ensures Tally(s - {x}, key) == Release(Tally(s, key), key(x))
  {
    TallyPositive(s, key);
    var s' := s - {x};
    assert s == s' + {x};
    TallyAdd(s', x, key);
    TallyPositive(s', key);
    AcquireThenRelease(Tally(s', key), key(x));
  }
}
