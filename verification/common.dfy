/**
 Shared vocabulary of the ETL model: optional values (Python's `None`),
 dictionary `get`, flattening of nested lists, and the counting loop with
 which the circuits, drivers, races and qualifying tasks hand out surrogate
 ids.
 */
module Common {

  /** A value that may be missing; `None` is what a Python `dict.get` returns for an absent key. */
  datatype Option<+T> = None | Some(value: T)

  /** Python's `m.get(k)`: the value stored under `k`, or `None` when `k` is not a key. */
  function Get<K, V>(m: map<K, V>, k: K): Option<V>
  {
    if k in m then Some(m[k]) else None
  }

  /** The in-order concatenation of a list of lists (repeated `list.extend`). */
  function Flatten<T>(ss: seq<seq<T>>): seq<T>
  {
    if |ss| == 0 then [] else Flatten(ss[..|ss| - 1]) + ss[|ss| - 1]
  }

  /** The number of elements across all inner lists. */
  function TotalLength<T>(ss: seq<seq<T>>): nat
  {
    if |ss| == 0 then 0 else TotalLength(ss[..|ss| - 1]) + |ss[|ss| - 1]|
  }

  /** Extending by one more list appends exactly that list. */
  lemma FlattenSnoc<T>(ss: seq<seq<T>>, s: seq<T>)
    ensures Flatten(ss + [s]) == Flatten(ss) + s
  {
    assert (ss + [s])[..|ss|] == ss;
  }

  /** A single list flattens to itself. */
  lemma FlattenSingleton<T>(s: seq<T>)
    ensures Flatten([s]) == s
  {
    assert [s][..0] == [];
  }

  /** Flattening loses and invents nothing: its length is the sum of the inner lengths. */
  lemma {:induction false} FlattenLength<T>(ss: seq<seq<T>>)
    ensures |Flatten(ss)| == TotalLength(ss)
  {
    if |ss| > 0 {
      FlattenLength(ss[..|ss| - 1]);
    }
  }

  /** Flattening distributes over concatenation of the outer list. */
  lemma {:induction false} FlattenAppend<T>(ss: seq<seq<T>>, ts: seq<seq<T>>)
    ensures Flatten(ss + ts) == Flatten(ss) + Flatten(ts)
  {
    if |ts| == 0 {
      assert ss + ts == ss;
    } else {
      var init := ts[..|ts| - 1];
      var last := ts[|ts| - 1];
      assert ts == init + [last];
      assert ss + ts == (ss + init) + [last];
      FlattenSnoc(ss + init, last);
      FlattenAppend(ss, init);
      FlattenSnoc(init, last);
    }
  }

  /**
   The rows of the counting loop of the circuits, drivers, races and qualifying tasks:
   `id = first; for item in items: rows.append(row(id, item)); id += 1`.
   The contract is its closed form: the k-th row carries id `first + k`.
   */
  function Emit<A, R>(items: seq<A>, first: nat, row: (nat, A) -> R): (r: seq<R>)
    ensures |r| == |items|
    ensures forall k :: 0 <= k < |items| ==> r[k] == row(first + k, items[k])
  {
    if |items| == 0 then [] else [row(first, items[0])] + Emit(items[1..], first + 1, row)
  }
}
