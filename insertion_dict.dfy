/** A Python `dict` with string keys, which remembers insertion order, as a
    sequence of key-value pairs. The operations here keep the keys distinct
    (`AssignKeepsDistinct`); a lookup takes the first pair with its key. */
module InsertionDict {
  import opened Wrappers

  type Dict<V> = seq<(string, V)>

  /** The keys in insertion order, as `json.dumps` walks them. */
  function Keys<V>(d: Dict<V>): (ks: seq<string>)
    ensures |ks| == |d|
    ensures forall i :: 0 <= i < |d| ==> ks[i] == d[i].0
  {
    seq(|d|, i requires 0 <= i < |d| => d[i].0)
  }

  /** `d.get(k)`. */
  function Get<V>(d: Dict<V>, k: string): (r: Option<V>)
    ensures r.Some? <==> k in Keys(d)
    decreases |d|
  {
    KeysTail(d);
    if d == [] then None
    else if d[0].0 == k then Some(d[0].1)
    else Get(d[1..], k)
  }

  /** `d[k] = v`: an existing key keeps its position and takes the new value;
      a new key goes to the end. */
  function Assign<V>(d: Dict<V>, k: string, v: V): (r: Dict<V>)
    ensures |r| == if k in Keys(d) then |d| else |d| + 1
    ensures (k, v) in r
    decreases |d|
  {
    KeysTail(d);
    if d == [] then [(k, v)]
    else if d[0].0 == k then [(k, v)] + d[1..]
    else [d[0]] + Assign(d[1..], k, v)
  }

  lemma KeysTail<V>(d: Dict<V>)
    ensures d != [] ==> Keys(d) == [d[0].0] + Keys(d[1..])
  {
  }

  /** Assigning a key the dict does not hold appends the pair at the end. */
  lemma {:induction false} AssignFresh<V>(d: Dict<V>, k: string, v: V)
    requires k !in Keys(d)
    ensures Assign(d, k, v) == d + [(k, v)]
    decreases |d|
  {
    if d != [] {
      KeysTail(d);
      assert d[0].0 != k && k !in Keys(d[1..]);
      AssignFresh(d[1..], k, v);
      assert Assign(d, k, v) == [d[0]] + Assign(d[1..], k, v);
      assert [d[0]] + (d[1..] + [(k, v)]) == d + [(k, v)];
    }
  }

  /** Assigning a key the dict already holds leaves the key order alone. */
  lemma {:induction false} AssignExisting<V>(d: Dict<V>, k: string, v: V)
    requires k in Keys(d)
    ensures Keys(Assign(d, k, v)) == Keys(d)
    decreases |d|
  {
    KeysTail(d);
    if d[0].0 != k {
      AssignExisting(d[1..], k, v);
      KeysTail(Assign(d, k, v));
    } else {
      KeysTail(Assign(d, k, v));
    }
  }

  /** After `d[k] = v`, `d.get(k)` is `v` and every other key reads as before. */
  lemma {:induction false} AssignGet<V>(d: Dict<V>, k: string, v: V, k': string)
    ensures Get(Assign(d, k, v), k') == if k' == k then Some(v) else Get(d, k')
    decreases |d|
  {
    if d != [] && d[0].0 != k {
      AssignGet(d[1..], k, v, k');
    }
  }

  predicate DistinctKeys<V>(d: Dict<V>) {
    forall i, j :: 0 <= i < j < |d| ==> d[i].0 != d[j].0
  }

  /** `d[k] = v` never creates a second entry for a key. */
  lemma {:induction false} AssignKeepsDistinct<V>(d: Dict<V>, k: string, v: V)
    requires DistinctKeys(d)
    ensures DistinctKeys(Assign(d, k, v))
    decreases |d|
  {
    if k !in Keys(d) {
      AssignFresh(d, k, v);
    } else {
      AssignExisting(d, k, v);
      var r := Assign(d, k, v);
      assert Keys(r) == Keys(d);
      forall i, j | 0 <= i < j < |r| ensures r[i].0 != r[j].0 {
        assert Keys(r)[i] == Keys(d)[i] && Keys(r)[j] == Keys(d)[j];
      }
    }
  }
}
