/**
 Lookup maps read back from an earlier table (`natural key -> surrogate id`)
 and the write-then-read round trip that makes the later joins correct.
 A table is seen here as its (natural key, id) column pair, row by row.
 */
module Lookup {
  import opened Common

  /** Every key that occurs in the key column. */
  function Keys<K, V>(pairs: seq<(K, V)>): set<K>
  {
    set i | 0 <= i < |pairs| :: pairs[i].0
  }

  /** Row i is the last row of the table carrying its key. */
  predicate LastWithKey<K(==), V>(pairs: seq<(K, V)>, i: nat)
    requires i < |pairs|
  {
    forall j :: i < j < |pairs| ==> pairs[j].0 != pairs[i].0
  }

  /** No key occurs in two rows. */
  predicate DistinctKeys<K(==), V>(pairs: seq<(K, V)>)
  {
    forall i, j :: 0 <= i < j < |pairs| ==> pairs[i].0 != pairs[j].0
  }

  /** The id column as the counting loop writes it: row i (from 0) holds id i + 1. */
  predicate DenseIds<K>(pairs: seq<(K, nat)>)
  {
    forall i :: 0 <= i < |pairs| ==> pairs[i].1 == i + 1
  }

  /**
   `m = {}; for row in reader: m[key(row)] = int(row[0])`: the keys of the
   map are exactly the keys of the table.
   */
  function BuildMap<K, V>(pairs: seq<(K, V)>): (m: map<K, V>)
    ensures m.Keys == Keys(pairs)
  {
    if |pairs| == 0 then map[]
    else
      var init := pairs[..|pairs| - 1];
      var last := pairs[|pairs| - 1];
      assert Keys(pairs) == Keys(init) + {last.0} by {
        assert forall i :: 0 <= i < |init| ==> init[i] == pairs[i];
      }
      BuildMap(init)[last.0 := last.1]
  }

  /** A later row overwrites an earlier one with the same key: each key maps to the id of its LAST row. */
  lemma {:induction false} LaterRowWins<K, V>(pairs: seq<(K, V)>, i: nat)
    requires i < |pairs| && LastWithKey(pairs, i)
    ensures BuildMap(pairs)[pairs[i].0] == pairs[i].1
  {
    var n := |pairs| - 1;
    if i < n {
      var init := pairs[..n];
      assert init[i] == pairs[i];
      assert LastWithKey(init, i) by {
        forall j | i < j < |init|
          ensures init[j].0 != init[i].0
        {
          assert init[j] == pairs[j];
        }
      }
      LaterRowWins(init, i);
      assert pairs[n].0 != pairs[i].0;
    }
  }

  /** A key that no row carries does not resolve: the join yields `None`, never an error. */
  lemma MissingKeyResolvesToNone<K, V>(pairs: seq<(K, V)>, k: K)
    ensures Get(BuildMap(pairs), k) == None <==> (forall i :: 0 <= i < |pairs| ==> pairs[i].0 != k)
  {
    if Get(BuildMap(pairs), k) != None {
      assert k in Keys(pairs);
    }
  }

  /**
   The write-then-read round trip: reading back a table written by the
   counting loop, with no key repeated, sends every key to exactly the id
   that was assigned to it, and nothing else is a key.
   */
  lemma {:induction false} DenseTableRoundTrip<K>(pairs: seq<(K, nat)>)
    requires DenseIds(pairs) && DistinctKeys(pairs)
    ensures BuildMap(pairs).Keys == Keys(pairs)
    ensures forall i :: 0 <= i < |pairs| ==> Get(BuildMap(pairs), pairs[i].0) == Some(i + 1)
  {
    forall i | 0 <= i < |pairs|
      ensures Get(BuildMap(pairs), pairs[i].0) == Some(i + 1)
    {
      LaterRowWins(pairs, i);
    }
  }
}
