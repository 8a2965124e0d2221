/**
 * A Python `dict` with string keys: an insertion-ordered list of entries.
 * Assigning to a key that is present replaces its value in place (the key
 * keeps its position); assigning to a new key appends it.
 */
module OrderedDict {
  import opened Wrappers

  datatype Entry<V> = Entry(key: string, val: V)

  type Dict<V> = seq<Entry<V>>

  function Keys<V>(d: Dict<V>): (ks: seq<string>)
    ensures |ks| == |d| && forall i :: 0 <= i < |d| ==> ks[i] == d[i].key
  {
    seq(|d|, i requires 0 <= i < |d| => d[i].key)
  }

  predicate UniqueKeys<V>(d: Dict<V>)
  {
    forall i, j :: 0 <= i < j < |d| ==> d[i].key != d[j].key
  }

  predicate HasKey<V>(d: Dict<V>, k: string)
  {
    exists i :: 0 <= i < |d| && d[i].key == k
  }

  /** The position of the first entry with key k. */
  function IndexOf<V>(d: Dict<V>, k: string): (r: Option<nat>)
    ensures r.Some? ==> r.value < |d| && d[r.value].key == k
    ensures r.None? <==> !HasKey(d, k)
  {
    if d == [] then None
    else if d[0].key == k then Some(0)
    else
      match IndexOf(d[1..], k)
      case None => (assert forall i :: 1 <= i < |d| ==> d[i] == d[1..][i - 1]; None)
      case Some(i) => Some(i + 1)
  }

  /** `d[k]`, or None where Python raises KeyError. */
  function Get<V>(d: Dict<V>, k: string): Option<V>
  {
    match IndexOf(d, k)
    case Some(i) => Some(d[i].val)
    case None => None
  }

  /** `d[k] = v`. */
  function Put<V>(d: Dict<V>, k: string, v: V): (r: Dict<V>)
    ensures HasKey(d, k) ==> |r| == |d|
    ensures !HasKey(d, k) ==> |r| == |d| + 1
  {
    match IndexOf(d, k)
    case Some(i) => d[i := Entry(k, v)]
    case None => d + [Entry(k, v)]
  }

  function Values<V>(d: Dict<V>): (vs: seq<V>)
    ensures |vs| == |d| && forall i :: 0 <= i < |d| ==> vs[i] == d[i].val
  {
    seq(|d|, i requires 0 <= i < |d| => d[i].val)
  }

  /** In a dict with unique keys, the entry at position i is found under its own key. */
  lemma GetAt<V>(d: Dict<V>, i: nat)
    requires UniqueKeys(d) && i < |d|
    ensures Get(d, d[i].key) == Some(d[i].val)
  {
    var r := IndexOf(d, d[i].key);
    assert HasKey(d, d[i].key);
    assert r.value == i;
  }

  /** Assignment keeps keys unique, and the keys are the old ones, plus k at the end when it was new. */
  lemma PutKeys<V>(d: Dict<V>, k: string, v: V)
    requires UniqueKeys(d)
    ensures UniqueKeys(Put(d, k, v))
    ensures Keys(Put(d, k, v)) == if HasKey(d, k) then Keys(d) else Keys(d) + [k]
  {
    match IndexOf(d, k)
    case Some(i) =>
      assert Keys(Put(d, k, v)) == Keys(d);
    case None =>
      assert Keys(Put(d, k, v)) == Keys(d) + [k];
  }

  /** After `d[k] = v`, k maps to v and every other key maps to what it did before. */
  lemma PutGet<V>(d: Dict<V>, k: string, v: V, k': string)
    requires UniqueKeys(d)
    ensures Get(Put(d, k, v), k') == if k' == k then Some(v) else Get(d, k')
  {
    var r := Put(d, k, v);
    PutKeys(d, k, v);
    if k' == k {
      match IndexOf(d, k)
      case Some(i) => GetAt(r, i);
      case None => GetAt(r, |d|);
    } else {
      match IndexOf(d, k')
      case Some(j) =>
        assert r[j] == d[j];
        GetAt(r, j);
      case None =>
        assert !HasKey(r, k') by {
          forall i | 0 <= i < |r| ensures r[i].key != k' {
            if i < |d| && r[i] != d[i] {
              assert r[i].key == k;
            }
          }
        }
    }
  }

  /** After `d[k] = v` the keys present are the old ones and k. */
  lemma PutHasKey<V>(d: Dict<V>, k: string, v: V, x: string)
    ensures HasKey(Put(d, k, v), x) <==> HasKey(d, x) || x == k
  {
    var r := Put(d, k, v);
    match IndexOf(d, k)
    case Some(i) =>
      assert r[i].key == k;
      if HasKey(d, x) && x != k {
        var j :| 0 <= j < |d| && d[j].key == x;
        assert r[j] == d[j];
      }
      if HasKey(r, x) && x != k {
        var j :| 0 <= j < |r| && r[j].key == x;
        assert r[j] == d[j];
      }
    case None =>
      assert r[|d|].key == k;
      if HasKey(d, x) {
        var j :| 0 <= j < |d| && d[j].key == x;
        assert r[j] == d[j];
      }
      if HasKey(r, x) && x != k {
        var j :| 0 <= j < |r| && r[j].key == x;
        assert r[j] == d[j];
      }
  }

  /** Every entry after `d[k] = v` is the new one or the old entry at its position. */
  lemma PutAt<V>(d: Dict<V>, k: string, v: V, i: nat)
    requires i < |Put(d, k, v)|
    ensures Put(d, k, v)[i] == Entry(k, v) || (i < |d| && Put(d, k, v)[i] == d[i])
  {
  }

  /** Entries other than the one under k keep their value and their position. */
  lemma PutOthersStay<V>(d: Dict<V>, k: string, v: V, i: nat)
    requires i < |d| && d[i].key != k
    ensures Put(d, k, v)[i] == d[i]
  {
  }
}
