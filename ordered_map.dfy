/**
 * An insertion-ordered dictionary keyed by chat id, as Python's `dict` behaves: assigning
 * an existing key replaces its value in place, assigning a new key appends it, and `del`
 * removes it. Iteration order is the order of the sequence.
 */
module OrderedMap {
  import opened Wrappers

  predicate HasKey<V>(m: seq<(int, V)>, k: int) {
    exists i :: 0 <= i < |m| && m[i].0 == k
  }

  predicate DistinctKeys<V>(m: seq<(int, V)>) {
    forall i, j :: 0 <= i < j < |m| ==> m[i].0 != m[j].0
  }

  /** `d.get(k)`. */
  function Get<V>(m: seq<(int, V)>, k: int): (r: Option<V>)
    ensures r.Some? <==> HasKey(m, k)
  {
    if m == [] then None
    else if m[0].0 == k then Some(m[0].1)
    else
      assert forall i :: 0 < i < |m| ==> m[1..][i - 1] == m[i];
      Get(m[1..], k)
  }

  /** `d[k] = v`. */
  function Put<V>(m: seq<(int, V)>, k: int, v: V): seq<(int, V)> {
    if m == [] then [(k, v)]
    else if m[0].0 == k then [(k, v)] + m[1..]
    else [m[0]] + Put(m[1..], k, v)
  }

  /** `if k in d: del d[k]`. */
  function Remove<V>(m: seq<(int, V)>, k: int): seq<(int, V)> {
    if m == [] then []
    else if m[0].0 == k then Remove(m[1..], k)
    else [m[0]] + Remove(m[1..], k)
  }

  /** With distinct keys, the value stored under `m[i].0` is `m[i].1`. */
  lemma {:induction false} GetAt<V>(m: seq<(int, V)>, i: nat)
    requires DistinctKeys(m) && i < |m|
    ensures Get(m, m[i].0) == Some(m[i].1)
  {
    if i > 0 {
      GetAt(m[1..], i - 1);
    }
  }

  /** Assigning a new key appends it at the end of the iteration order. */
  lemma {:induction false} PutNew<V>(m: seq<(int, V)>, k: int, v: V)
    requires !HasKey(m, k)
    ensures Put(m, k, v) == m + [(k, v)]
  {
    if m != [] {
      assert m[0].0 != k;
      assert !HasKey(m[1..], k) by {
        forall i | 0 <= i < |m[1..]| ensures m[1..][i].0 != k { assert m[1..][i] == m[i + 1]; }
      }
      PutNew(m[1..], k, v);
      assert m == [m[0]] + m[1..];
    }
  }

  /** Reassigning an existing key replaces its value and keeps its position. */
  lemma {:induction false} PutExisting<V>(m: seq<(int, V)>, i: nat, v: V)
    requires DistinctKeys(m) && i < |m|
    ensures Put(m, m[i].0, v) == m[i := (m[i].0, v)]
  {
    var k := m[i].0;
    if i == 0 {
      assert m[i := (k, v)] == [(k, v)] + m[1..];
    } else {
      var t := m[1..];
      assert m[0].0 != k;
      assert t[i - 1] == m[i];
      assert DistinctKeys(t) by {
        forall a, b | 0 <= a < b < |t| ensures t[a].0 != t[b].0 { assert t[a] == m[a + 1] && t[b] == m[b + 1]; }
      }
      PutExisting(t, i - 1, v);
      assert Put(m, k, v) == [m[0]] + t[i - 1 := (k, v)];
      assert [m[0]] + t[i - 1 := (k, v)] == m[i := (k, v)];
    }
  }

  /** Assignment keeps the keys distinct. */
  lemma PutKeepsDistinct<V>(m: seq<(int, V)>, k: int, v: V)
    requires DistinctKeys(m)
    ensures DistinctKeys(Put(m, k, v))
  {
    if HasKey(m, k) {
      var i :| 0 <= i < |m| && m[i].0 == k;
      PutExisting(m, i, v);
    } else {
      PutNew(m, k, v);
    }
  }

  /** After `d[k] = v`, `d[k]` is `v` and every other key reads as before. */
  lemma {:induction false} GetPut<V>(m: seq<(int, V)>, k: int, v: V, k': int)
    ensures Get(Put(m, k, v), k') == if k' == k then Some(v) else Get(m, k')
  {
    if m != [] && m[0].0 != k {
      GetPut(m[1..], k, v, k');
    }
  }

  /** Deleting an absent key changes nothing. */
  lemma {:induction false} RemoveAbsent<V>(m: seq<(int, V)>, k: int)
    requires !HasKey(m, k)
    ensures Remove(m, k) == m
  {
    if m != [] {
      assert m[0].0 != k;
      assert !HasKey(m[1..], k) by {
        forall i | 0 <= i < |m[1..]| ensures m[1..][i].0 != k { assert m[1..][i] == m[i + 1]; }
      }
      RemoveAbsent(m[1..], k);
      assert m == [m[0]] + m[1..];
    }
  }

  /**
   * Deleting the entry at position `i` cuts exactly that entry out: entries before it keep
   * their positions, entries after it move up by one, and the relative order is kept.
   */
  lemma {:induction false} RemoveAt<V>(m: seq<(int, V)>, i: nat)
    requires DistinctKeys(m) && i < |m|
    ensures Remove(m, m[i].0) == m[..i] + m[i + 1..]
  {
    var k := m[i].0;
    if i == 0 {
      assert !HasKey(m[1..], k) by {
        forall j | 0 <= j < |m[1..]| ensures m[1..][j].0 != k { assert m[1..][j] == m[j + 1]; }
      }
      RemoveAbsent(m[1..], k);
    } else {
      assert m[0].0 != k;
      RemoveAt(m[1..], i - 1);
      assert m[1..][i - 1] == m[i];
      assert m[..i] == [m[0]] + m[1..][..i - 1];
      assert m[i + 1..] == m[1..][i..];
    }
  }

  /** Cutting one entry out keeps the keys distinct. */
  lemma CutKeepsDistinct<V>(m: seq<(int, V)>, i: nat)
    requires DistinctKeys(m) && i < |m|
    ensures DistinctKeys(m[..i] + m[i + 1..])
  {
    var r := m[..i] + m[i + 1..];
    forall a, b | 0 <= a < b < |r| ensures r[a].0 != r[b].0 {
      var a' := if a < i then a else a + 1;
      var b' := if b < i then b else b + 1;
      assert r[a] == m[a'] && r[b] == m[b'];
    }
  }

  /** Deletion keeps the keys distinct. */
  lemma RemoveKeepsDistinct<V>(m: seq<(int, V)>, k: int)
    requires DistinctKeys(m)
    ensures DistinctKeys(Remove(m, k))
  {
    if HasKey(m, k) {
      var i :| 0 <= i < |m| && m[i].0 == k;
      RemoveAt(m, i);
      CutKeepsDistinct(m, i);
    } else {
      RemoveAbsent(m, k);
    }
  }

  /** After `del d[k]`, `k` is gone and every other key reads as before. */
  lemma {:induction false} GetRemove<V>(m: seq<(int, V)>, k: int, k': int)
    ensures Get(Remove(m, k), k') == if k' == k then None else Get(m, k')
  {
    if m != [] {
      GetRemove(m[1..], k, k');
    }
  }
}
