/**
 * Insertion-ordered dictionaries (Python's `dict`, LLVM's `MapVector`): an
 * association list in insertion order, where assigning to a key that is
 * already present replaces its value in place and assigning to a new key
 * appends it.
 */
module Dicts {

  import opened Wrappers

  /** The keys, in insertion order. */
  function Keys<K, V>(d: seq<(K, V)>): (r: seq<K>)
    ensures |r| == |d|
    decreases |d|
  {
    if |d| == 0 then [] else [d[0].0] + Keys(d[1..])
  }

  /** Assigning the pairs of `d` in order on top of `acc` only ever adds keys that are new. */
  predicate NewKeys<K(==), V>(acc: seq<(K, V)>, d: seq<(K, V)>)
    decreases |d|
  {
    |d| == 0 || (d[0].0 !in Keys(acc) && NewKeys(acc + [d[0]], d[1..]))
  }

  /** Every key of `d` occurs once, as in a dict. */
  predicate DistinctKeys<K(==), V>(d: seq<(K, V)>)
  {
    NewKeys([], d)
  }

  /** `d.get(k)`. */
  function Get<K(==), V>(d: seq<(K, V)>, k: K): (r: Option<V>)
    ensures r.None? <==> k !in Keys(d)
    decreases |d|
  {
    if |d| == 0 then None
    else if d[0].0 == k then Some(d[0].1)
    else Get(d[1..], k)
  }

  /** `d[k] = v`: the key order changes only when the key is new. */
  function Set<K(==), V>(d: seq<(K, V)>, k: K, v: V): (r: seq<(K, V)>)
    ensures k in Keys(d) ==> Keys(r) == Keys(d)
    ensures k !in Keys(d) ==> Keys(r) == Keys(d) + [k]
    decreases |d|
  {
    if |d| == 0 then [(k, v)]
    else if d[0].0 == k then [(k, v)] + d[1..]
    else [d[0]] + Set(d[1..], k, v)
  }

  /** After `d[k] = v`, `d[k]` is `v`: the last assignment wins. */
  lemma {:induction false} GetSet<K, V>(d: seq<(K, V)>, k: K, v: V)
    ensures Get(Set(d, k, v), k) == Some(v)
    decreases |d|
  {
    if |d| > 0 && d[0].0 != k {
      GetSet(d[1..], k, v);
      assert Set(d, k, v)[1..] == Set(d[1..], k, v);
    }
  }

  /** `d[k] = v` leaves every other key's value alone. */
  lemma {:induction false} GetSetOther<K, V>(d: seq<(K, V)>, k: K, v: V, k': K)
    requires k' != k
    ensures Get(Set(d, k, v), k') == Get(d, k')
    decreases |d|
  {
    if |d| > 0 && d[0].0 != k {
      GetSetOther(d[1..], k, v, k');
      assert Set(d, k, v)[1..] == Set(d[1..], k, v);
    } else if |d| > 0 {
      assert Set(d, k, v)[1..] == d[1..];
    }
  }

  /** Assigning a key not yet present appends the pair. */
  lemma {:induction false} SetNew<K, V>(d: seq<(K, V)>, k: K, v: V)
    requires k !in Keys(d)
    ensures Set(d, k, v) == d + [(k, v)]
    decreases |d|
  {
    if |d| > 0 {
      SetNew(d[1..], k, v);
      assert [d[0]] + (d[1..] + [(k, v)]) == d + [(k, v)];
    }
  }

  /** A dict filled by assigning the pairs of `d` in order, starting from `acc`. */
  function Assign<K(==), V>(acc: seq<(K, V)>, d: seq<(K, V)>): seq<(K, V)>
    decreases |d|
  {
    if |d| == 0 then acc else Assign(Set(acc, d[0].0, d[0].1), d[1..])
  }

  /** Assigning pairs whose keys are all new gives them back in order. */
  lemma {:induction false} AssignNew<K, V>(acc: seq<(K, V)>, d: seq<(K, V)>)
    requires NewKeys(acc, d)
    ensures Assign(acc, d) == acc + d
    decreases |d|
  {
    if |d| > 0 {
      assert d[0].0 !in Keys(acc) && NewKeys(acc + [d[0]], d[1..]);
      SetNew(acc, d[0].0, d[0].1);
      assert Assign(acc, d) == Assign(acc + [d[0]], d[1..]);
      AssignNew(acc + [d[0]], d[1..]);
      MoveHead(acc, d);
    } else {
      assert acc + d == acc;
    }
  }

  lemma MoveHead<T>(a: seq<T>, b: seq<T>)
    requires |b| > 0
    ensures a + [b[0]] + b[1..] == a + b
  {
    assert [b[0]] + b[1..] == b;
    assert a + [b[0]] + b[1..] == a + ([b[0]] + b[1..]);
  }

  lemma {:induction false} KeysAppend<K, V>(a: seq<(K, V)>, b: seq<(K, V)>)
    ensures Keys(a + b) == Keys(a) + Keys(b)
    decreases |a|
  {
    if |a| > 0 {
      assert (a + b)[1..] == a[1..] + b;
      KeysAppend(a[1..], b);
    } else {
      assert a + b == b;
    }
  }

  /** Looking a key up in two lists one after the other finds it in the first one that has it. */
  lemma {:induction false} GetAppend<K, V>(a: seq<(K, V)>, b: seq<(K, V)>, k: K)
    ensures Get(a + b, k) == if k in Keys(a) then Get(a, k) else Get(b, k)
    decreases |a|
  {
    if |a| > 0 {
      assert (a + b)[1..] == a[1..] + b;
      GetAppend(a[1..], b, k);
    } else {
      assert a + b == b;
    }
  }

  lemma {:induction false} KeysSnoc<K, V>(d: seq<(K, V)>, p: (K, V))
    ensures Keys(d + [p]) == Keys(d) + [p.0]
    decreases |d|
  {
    if |d| > 0 {
      assert (d + [p])[1..] == d[1..] + [p];
      KeysSnoc(d[1..], p);
    }
  }
}
