/**
 * A JavaScript object used as a dictionary: string keys, each at most once, enumerated by
 * `Object.keys` in the order they were first assigned.
 */
module Dicts {
  import opened Wrappers

  datatype Entry<V> = Entry(key: string, value: V)

  /** The own properties of an object, in insertion order. */
  type Dict<V> = seq<Entry<V>>

  /** `Object.keys`. */
  function Keys<V>(d: Dict<V>): (ks: seq<string>)
    ensures |ks| == |d|
    ensures forall i :: 0 <= i < |d| ==> ks[i] == d[i].key
  {
    seq(|d|, i requires 0 <= i < |d| => d[i].key)
  }

  /** An object never has the same property twice. */
  predicate DistinctKeys<V>(d: Dict<V>) {
    forall i, j :: 0 <= i < j < |d| ==> d[i].key != d[j].key
  }

  /** `d[k]`, with `None` for a property the object does not have. */
  function Get<V>(d: Dict<V>, k: string): Option<V> {
    if d == [] then None
    else if d[0].key == k then Some(d[0].value)
    else Get(d[1..], k)
  }

  /** A lookup finds something exactly when the object has the property. */
  lemma {:induction false} GetNone<V>(d: Dict<V>, k: string)
    ensures Get(d, k).None? <==> k !in Keys(d)
  {
    if d != [] {
      GetNone(d[1..], k);
      assert Keys(d) == [d[0].key] + Keys(d[1..]);
    }
  }

  /** A lookup that finds a value finds one the object stores under that key. */
  lemma {:induction false} GetFound<V>(d: Dict<V>, k: string)
    ensures Get(d, k).Some? ==> Entry(k, Get(d, k).value) in d
  {
    if d != [] && d[0].key != k {
      GetFound(d[1..], k);
    }
  }

  /** With distinct keys, a lookup finds the value stored at that key's position. */
  lemma {:induction false} GetAt<V>(d: Dict<V>, i: int)
    requires DistinctKeys(d) && 0 <= i < |d|
    ensures Get(d, d[i].key) == Some(d[i].value)
  {
    if i > 0 {
      GetAt(d[1..], i - 1);
    }
  }

  /**
   * `d[k] = v`: an existing property keeps its place and takes the new value; a new one is
   * appended at the end.
   */
  function Put<V>(d: Dict<V>, k: string, v: V): Dict<V> {
    if d == [] then [Entry(k, v)]
    else if d[0].key == k then [Entry(k, v)] + d[1..]
    else [d[0]] + Put(d[1..], k, v)
  }

  /** `Put` appends the key when it is new and otherwise leaves the key order as it was. */
  lemma {:induction false} PutKeys<V>(d: Dict<V>, k: string, v: V)
    ensures Keys(Put(d, k, v)) == if k in Keys(d) then Keys(d) else Keys(d) + [k]
  {
    if d != [] {
      assert Keys(d) == [d[0].key] + Keys(d[1..]);
      if d[0].key != k {
        PutKeys(d[1..], k, v);
        assert Keys(Put(d, k, v)) == [d[0].key] + Keys(Put(d[1..], k, v));
      } else {
        assert Keys(Put(d, k, v)) == [k] + Keys(d[1..]);
      }
    }
  }

  /** On an object with distinct keys, `Put` stores the value under its key and changes no other entry. */
  lemma {:induction false} PutEntries<V>(d: Dict<V>, k: string, v: V)
    requires DistinctKeys(d)
    ensures |Put(d, k, v)| == |d| || (|Put(d, k, v)| == |d| + 1 && Put(d, k, v)[|d|] == Entry(k, v))
    ensures forall i :: 0 <= i < |d| ==> Put(d, k, v)[i] == if d[i].key == k then Entry(k, v) else d[i]
  {
    if d != [] && d[0].key != k {
      PutEntries(d[1..], k, v);
    }
  }

  /**
   * On an object with distinct keys, `Put` keeps the keys distinct, appends the key when it is
   * new, stores the value under it and changes no other entry.
   */
  lemma PutFacts<V>(d: Dict<V>, k: string, v: V)
    requires DistinctKeys(d)
    ensures DistinctKeys(Put(d, k, v))
    ensures Keys(Put(d, k, v)) == if k in Keys(d) then Keys(d) else Keys(d) + [k]
    ensures |Put(d, k, v)| == |d| || (|Put(d, k, v)| == |d| + 1 && Put(d, k, v)[|d|] == Entry(k, v))
    ensures forall i :: 0 <= i < |d| ==> Put(d, k, v)[i] == if d[i].key == k then Entry(k, v) else d[i]
  {
    PutKeys(d, k, v);
    PutEntries(d, k, v);
    var r := Put(d, k, v);
    forall i, j | 0 <= i < j < |r| ensures r[i].key != r[j].key {
      assert Keys(r)[i] == r[i].key && Keys(r)[j] == r[j].key;
      if j == |d| {
        assert k !in Keys(d);
        assert Keys(d)[i] == d[i].key;
      }
    }
  }

  /** After `Put`, the key holds the new value. */
  lemma PutGet<V>(d: Dict<V>, k: string, v: V)
    requires DistinctKeys(d)
    ensures Get(Put(d, k, v), k) == Some(v)
  {
    PutFacts(d, k, v);
    var r := Put(d, k, v);
    var i :| 0 <= i < |r| && r[i].key == k by {
      assert k in Keys(r);
    }
    GetAt(r, i);
  }
}
