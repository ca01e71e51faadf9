/**
 The constructors task: every season's constructor list, deduplicated by
 natural ref with a seen-set, ids handed out in first-seen order; and the
 `constructor_ref -> constructor_id` map the qualifying task reads back.
 */
module Constructors {
  import opened Common
  import opened Records
  import opened Lookup

  /** Every natural ref among the fetched items. */
  function Refs(xs: seq<ConstructorItem>): set<string>
  {
    set i | 0 <= i < |xs| :: xs[i].constructorRef
  }

  /** Every ref present in the table. */
  function RowRefs(rows: seq<ConstructorRow>): set<string>
  {
    set k | 0 <= k < |rows| :: rows[k].ref
  }

  /** Position of the first fetched item carrying `ref`. */
  function FirstIndex(xs: seq<ConstructorItem>, ref: string): (i: nat)
    requires ref in Refs(xs)
    ensures i < |xs| && xs[i].constructorRef == ref
    ensures forall j :: 0 <= j < i ==> xs[j].constructorRef != ref
  {
    if xs[0].constructorRef == ref then 0
    else
      assert ref in Refs(xs[1..]) by {
        var i :| 0 <= i < |xs| && xs[i].constructorRef == ref;
        assert xs[1..][i - 1] == xs[i];
      }
      1 + FirstIndex(xs[1..], ref)
  }

  /** The row carries the name and nationality of the FIRST item with its ref. */
  predicate FromFirstOccurrence(xs: seq<ConstructorItem>, row: ConstructorRow)
  {
    && row.ref in Refs(xs)
    && row.name == xs[FirstIndex(xs, row.ref)].name
    && row.nationality == xs[FirstIndex(xs, row.ref)].nationality
  }

  /**
   The inner loop of `_constructors`: an item whose ref is in `seen` is
   skipped; otherwise its ref joins `seen` and it is written with the
   counter, which then advances.
   */
  function Dedup(xs: seq<ConstructorItem>, seen: set<string>, next: nat): (r: seq<ConstructorRow>)
    ensures |r| <= |xs|
    ensures forall k :: 0 <= k < |r| ==> r[k].id == next + k
  {
    if |xs| == 0 then []
    else if xs[0].constructorRef in seen then Dedup(xs[1..], seen, next)
    else
      [ConstructorRow(next, xs[0].constructorRef, xs[0].name, xs[0].nationality)]
      + Dedup(xs[1..], seen + {xs[0].constructorRef}, next + 1)
  }

  /** Every season's constructor response, concatenated in season order. */
  function AllItems(seasons: seq<string>, constructorsOf: string -> seq<ConstructorItem>): seq<ConstructorItem>
  {
    Flatten(seq(|seasons|, i requires 0 <= i < |seasons| => constructorsOf(seasons[i])))
  }

  /**
   `_constructors`: the seen-set and the counter persist across seasons, so
   the nested loops are one deduplicating pass over the concatenation.
   */
  function ConstructorTable(seasons: seq<string>, constructorsOf: string -> seq<ConstructorItem>): (rows: seq<ConstructorRow>)
    ensures |rows| <= |AllItems(seasons, constructorsOf)|
    ensures forall k :: 0 <= k < |rows| ==> rows[k].id == k + 1
    ensures RowRefs(rows) == Refs(AllItems(seasons, constructorsOf))
  {
    DedupRefs(AllItems(seasons, constructorsOf), {}, 1);
    Dedup(AllItems(seasons, constructorsOf), {}, 1)
  }

  lemma RefsCons(xs: seq<ConstructorItem>)
    requires |xs| > 0
    ensures Refs(xs) == {xs[0].constructorRef} + Refs(xs[1..])
  {
    forall r | r in Refs(xs)
      ensures r in {xs[0].constructorRef} + Refs(xs[1..])
    {
      var i :| 0 <= i < |xs| && xs[i].constructorRef == r;
      if i > 0 {
        assert xs[1..][i - 1] == xs[i];
      }
    }
    forall r | r in Refs(xs[1..])
      ensures r in Refs(xs)
    {
      var i :| 0 <= i < |xs[1..]| && xs[1..][i].constructorRef == r;
      assert xs[i + 1] == xs[1..][i];
    }
  }

  /** Past the first item, the first occurrence of any other ref is one position later than in the tail. */
  lemma FirstIndexTail(xs: seq<ConstructorItem>, ref: string)
    requires |xs| > 0 && ref != xs[0].constructorRef && ref in Refs(xs[1..])
    ensures ref in Refs(xs)
    ensures FirstIndex(xs, ref) == 1 + FirstIndex(xs[1..], ref)
    ensures xs[FirstIndex(xs, ref)] == xs[1..][FirstIndex(xs[1..], ref)]
  {
    RefsCons(xs);
  }

  /** The pass writes exactly the refs not already seen. */
  lemma {:induction false} DedupRefs(xs: seq<ConstructorItem>, seen: set<string>, next: nat)
    ensures forall k :: 0 <= k < |Dedup(xs, seen, next)| ==>
              Dedup(xs, seen, next)[k].ref in Refs(xs) && Dedup(xs, seen, next)[k].ref !in seen
    ensures RowRefs(Dedup(xs, seen, next)) == Refs(xs) - seen
    decreases |xs|
  {
    if |xs| > 0 {
      var x := xs[0];
      var ys := xs[1..];
      var r := Dedup(xs, seen, next);
      RefsCons(xs);
      if x.constructorRef in seen {
        DedupRefs(ys, seen, next);
      } else {
        var rest := Dedup(ys, seen + {x.constructorRef}, next + 1);
        DedupRefs(ys, seen + {x.constructorRef}, next + 1);
        assert r == [ConstructorRow(next, x.constructorRef, x.name, x.nationality)] + rest;
        forall k | 0 <= k < |r|
          ensures r[k].ref in Refs(xs) && r[k].ref !in seen
        {
          if k > 0 {
            assert r[k] == rest[k - 1];
          }
        }
        forall c | c in RowRefs(r)
          ensures c in {x.constructorRef} + RowRefs(rest)
        {
          var k :| 0 <= k < |r| && r[k].ref == c;
          if k > 0 {
            assert r[k] == rest[k - 1];
          }
        }
        forall c | c in RowRefs(rest)
          ensures c in RowRefs(r)
        {
          var k :| 0 <= k < |rest| && rest[k].ref == c;
          assert r[k + 1] == rest[k];
        }
        assert r[0].ref == x.constructorRef;
        assert RowRefs(r) == {x.constructorRef} + RowRefs(rest);
      }
    }
  }

  /** Each row of the pass carries the fields of the FIRST occurrence of its ref: a later duplicate changes nothing. */
  lemma {:induction false} DedupFirstFields(xs: seq<ConstructorItem>, seen: set<string>, next: nat)
    ensures forall k :: 0 <= k < |Dedup(xs, seen, next)| ==> FromFirstOccurrence(xs, Dedup(xs, seen, next)[k])
    decreases |xs|
  {
    if |xs| > 0 {
      var x := xs[0];
      var ys := xs[1..];
      var r := Dedup(xs, seen, next);
      if x.constructorRef in seen {
        DedupFirstFields(ys, seen, next);
        DedupRefs(ys, seen, next);
        forall k | 0 <= k < |r|
          ensures FromFirstOccurrence(xs, r[k])
        {
          FirstIndexTail(xs, r[k].ref);
        }
      } else {
        var rest := Dedup(ys, seen + {x.constructorRef}, next + 1);
        DedupFirstFields(ys, seen + {x.constructorRef}, next + 1);
        DedupRefs(ys, seen + {x.constructorRef}, next + 1);
        assert r == [ConstructorRow(next, x.constructorRef, x.name, x.nationality)] + rest;
        RefsCons(xs);
        forall k | 0 <= k < |r|
          ensures FromFirstOccurrence(xs, r[k])
        {
          if k > 0 {
            assert r[k] == rest[k - 1];
            FirstIndexTail(xs, rest[k - 1].ref);
          }
        }
      }
    }
  }

  /** The rows of the pass come in the order of the first occurrences of their refs. */
  predicate InFirstSeenOrder(xs: seq<ConstructorItem>, rows: seq<ConstructorRow>)
  {
    forall k, l :: 0 <= k < l < |rows| ==>
      rows[k].ref in Refs(xs) && rows[l].ref in Refs(xs) &&
      FirstIndex(xs, rows[k].ref) < FirstIndex(xs, rows[l].ref)
  }

  /** The pass writes its rows in the order of the first occurrences of their refs. */
  lemma {:induction false} DedupOrder(xs: seq<ConstructorItem>, seen: set<string>, next: nat)
    ensures InFirstSeenOrder(xs, Dedup(xs, seen, next))
    decreases |xs|
  {
    if |xs| > 0 {
      var ys := xs[1..];
      if xs[0].constructorRef in seen {
        DedupOrder(ys, seen, next);
        DedupRefs(ys, seen, next);
        OrderAfterSkip(xs, Dedup(ys, seen, next));
      } else {
        var seen' := seen + {xs[0].constructorRef};
        DedupOrder(ys, seen', next + 1);
        DedupRefs(ys, seen', next + 1);
        OrderAfterTake(xs, ConstructorRow(next, xs[0].constructorRef, xs[0].name, xs[0].nationality), Dedup(ys, seen', next + 1));
      }
    }
  }

  /** Rows ordered by first occurrence in the tail stay ordered once the head item is put back. */
  lemma OrderAfterSkip(xs: seq<ConstructorItem>, rows: seq<ConstructorRow>)
    requires |xs| > 0 && InFirstSeenOrder(xs[1..], rows)
    requires forall k :: 0 <= k < |rows| ==> rows[k].ref in Refs(xs[1..]) && rows[k].ref != xs[0].constructorRef
    ensures InFirstSeenOrder(xs, rows)
  {
    forall k | 0 <= k < |rows|
      ensures rows[k].ref in Refs(xs)
      ensures FirstIndex(xs, rows[k].ref) == 1 + FirstIndex(xs[1..], rows[k].ref)
    {
      FirstIndexTail(xs, rows[k].ref);
    }
  }

  /** The head item's row, put in front of rows ordered by first occurrence in the tail, keeps the order. */
  lemma OrderAfterTake(xs: seq<ConstructorItem>, first: ConstructorRow, rows: seq<ConstructorRow>)
    requires |xs| > 0 && first.ref == xs[0].constructorRef && InFirstSeenOrder(xs[1..], rows)
    requires forall k :: 0 <= k < |rows| ==> rows[k].ref in Refs(xs[1..]) && rows[k].ref != xs[0].constructorRef
    ensures InFirstSeenOrder(xs, [first] + rows)
  {
    OrderAfterSkip(xs, rows);
    RefsCons(xs);
    assert FirstIndex(xs, first.ref) == 0;
    var r := [first] + rows;
    forall k, l | 0 <= k < l < |r|
      ensures r[k].ref in Refs(xs) && r[l].ref in Refs(xs)
      ensures FirstIndex(xs, r[k].ref) < FirstIndex(xs, r[l].ref)
    {
      assert r[l] == rows[l - 1];
      if k > 0 {
        assert r[k] == rows[k - 1];
      }
    }
  }

  /** The (constructor_ref, constructor_id) columns of a constructors table. */
  function ConstructorKeys(rows: seq<ConstructorRow>): seq<(string, nat)>
  {
    seq(|rows|, i requires 0 <= i < |rows| => (rows[i].ref, rows[i].id))
  }

  /** `constructors[row[1]] = int(row[0])` over the rows of the constructors CSV. */
  function ConstructorMap(rows: seq<ConstructorRow>): map<string, nat>
  {
    BuildMap(ConstructorKeys(rows))
  }

  /**
   The deduplicated table of a fetched item list: ids 1..k, exactly one row
   per ref seen, rows ordered by first occurrence and carrying the fields of
   that first occurrence.
   */
  lemma DedupTableSpec(xs: seq<ConstructorItem>)
    ensures var rows := Dedup(xs, {}, 1);
            && (forall k :: 0 <= k < |rows| ==> rows[k].id == k + 1)
            && RowRefs(rows) == Refs(xs)
            && (forall k, l :: 0 <= k < l < |rows| ==> rows[k].ref != rows[l].ref)
            && (forall k :: 0 <= k < |rows| ==> FromFirstOccurrence(xs, rows[k]))
            && InFirstSeenOrder(xs, rows)
  {
    var rows := Dedup(xs, {}, 1);
    DedupRefs(xs, {}, 1);
    DedupFirstFields(xs, {}, 1);
    DedupOrder(xs, {}, 1);
    forall k, l | 0 <= k < l < |rows|
      ensures rows[k].ref != rows[l].ref
    {
      assert FirstIndex(xs, rows[k].ref) < FirstIndex(xs, rows[l].ref);
    }
  }

  /** `_constructors` over all seasons: the deduplicated table of every season's items in season order. */
  lemma ConstructorTableSpec(seasons: seq<string>, constructorsOf: string -> seq<ConstructorItem>)
    ensures var xs := AllItems(seasons, constructorsOf);
            var rows := ConstructorTable(seasons, constructorsOf);
            && (forall k :: 0 <= k < |rows| ==> rows[k].id == k + 1)
            && RowRefs(rows) == Refs(xs)
            && (forall k, l :: 0 <= k < l < |rows| ==> rows[k].ref != rows[l].ref)
            && (forall k :: 0 <= k < |rows| ==> FromFirstOccurrence(xs, rows[k]))
            && InFirstSeenOrder(xs, rows)
  {
    DedupTableSpec(AllItems(seasons, constructorsOf));
  }

  /** Reading back a constructors table with dense ids and distinct refs sends each ref to its row's id. */
  lemma ConstructorMapOfTable(rows: seq<ConstructorRow>)
    requires forall k :: 0 <= k < |rows| ==> rows[k].id == k + 1
    requires forall k, l :: 0 <= k < l < |rows| ==> rows[k].ref != rows[l].ref
    ensures forall k :: 0 <= k < |rows| ==> Get(ConstructorMap(rows), rows[k].ref) == Some(k + 1)
    ensures forall c :: c !in RowRefs(rows) ==> Get(ConstructorMap(rows), c) == None
  {
    var pairs := ConstructorKeys(rows);
    assert forall k :: 0 <= k < |rows| ==> pairs[k] == (rows[k].ref, rows[k].id);
    DenseTableRoundTrip(pairs);
    forall c | c !in RowRefs(rows)
      ensures Get(ConstructorMap(rows), c) == None
    {
      MissingKeyResolvesToNone(pairs, c);
      forall k | 0 <= k < |pairs|
        ensures pairs[k].0 != c
      {
        assert rows[k].ref in RowRefs(rows);
      }
    }
  }

  /**
   Write-then-read: every ref seen in the fetched items resolves, through the
   map read back from the deduplicated table, to the id of the one row that
   carries it; a ref never seen resolves to None.
   */
  lemma DedupMapRoundTrip(xs: seq<ConstructorItem>)
    ensures var rows := Dedup(xs, {}, 1);
            forall c :: c in Refs(xs) ==>
              exists k :: 0 <= k < |rows| && rows[k].ref == c && Get(ConstructorMap(rows), c) == Some(k + 1)
    ensures forall c :: c !in Refs(xs) ==> Get(ConstructorMap(Dedup(xs, {}, 1)), c) == None
  {
    var rows := Dedup(xs, {}, 1);
    DedupTableSpec(xs);
    ConstructorMapOfTable(rows);
    forall c | c in Refs(xs)
      ensures exists k :: 0 <= k < |rows| && rows[k].ref == c && Get(ConstructorMap(rows), c) == Some(k + 1)
    {
      assert c in RowRefs(rows);
      var k :| 0 <= k < |rows| && rows[k].ref == c;
      assert Get(ConstructorMap(rows), rows[k].ref) == Some(k + 1);
    }
  }
}
