/** One database table: rows keyed by their integer primary key, and the next
    value of the autoincrement counter. Ids are handed out in increasing order
    and never reused; `query.all()` is read as the rows in ascending id order. */
module Tables {

  datatype Table<R> = Table(rows: map<int, R>, nextId: int)
  {
    /** Every stored id was handed out by the counter: positive and below `nextId`. */
    ghost predicate Valid()
    {
      nextId >= 1 && forall k :: k in rows ==> 1 <= k < nextId
    }

    /** INSERT: the new row gets the counter's value as its id. */
    function Insert(r: R): (t: Table<R>)
      requires Valid()
      ensures t.Valid()
      ensures nextId !in rows && t.rows.Keys == rows.Keys + {nextId}
      ensures t.rows[nextId] == r
      ensures forall k :: k in rows ==> t.rows[k] == rows[k]
      ensures t.nextId > nextId
    {
      Table(rows[nextId := r], nextId + 1)
    }

    /** UPDATE of one stored row. */
    function Replace(id: int, r: R): (t: Table<R>)
      requires Valid() && id in rows
      ensures t.Valid()
      ensures t.rows.Keys == rows.Keys && t.rows[id] == r && t.nextId == nextId
      ensures forall k :: k in rows && k != id ==> t.rows[k] == rows[k]
    {
      Table(rows[id := r], nextId)
    }

    /** DELETE of one stored row; the counter does not move back. */
    function Remove(id: int): (t: Table<R>)
      requires Valid()
      ensures t.Valid()
      ensures t.rows.Keys == rows.Keys - {id} && t.nextId == nextId
      ensures forall k :: k in t.rows ==> t.rows[k] == rows[k]
    {
      Table(rows - {id}, nextId)
    }
  }

  function Empty<R>(): (t: Table<R>)
    ensures t.Valid() && t.rows == map[] && t.nextId == 1
  {
    Table(map[], 1)
  }

  /** An id freed by a delete is never handed out again: the next insert takes a new one. */
  lemma RemovedIdNotReused<R>(t: Table<R>, id: int, r: R)
    requires t.Valid() && id in t.rows
    ensures id !in t.Remove(id).Insert(r).rows
  {
  }
}

/** The list endpoints read a table through `query.all()`, whose row order SQL leaves
    open; this model lists the rows in ascending id order, which for an autoincrement
    key is the order of insertion. */
module Listings {
  import opened Tables

  /** The ids of `s` in `[lo, hi)`, in ascending order. */
  function IdsBetween(s: set<int>, lo: int, hi: int): (ks: seq<int>)
    ensures forall i :: 0 <= i < |ks| ==> ks[i] in s && lo <= ks[i] < hi
    ensures forall i, j :: 0 <= i < j < |ks| ==> ks[i] < ks[j]
    decreases hi - lo
  {
    if lo >= hi then []
    else (if lo in s then [lo] else []) + IdsBetween(s, lo + 1, hi)
  }

  /** No id in the range is skipped. */
  lemma {:induction false} IdsBetweenComplete(s: set<int>, lo: int, hi: int, x: int)
    requires x in s && lo <= x < hi
    ensures x in IdsBetween(s, lo, hi)
    decreases hi - lo
  {
    var rest := IdsBetween(s, lo + 1, hi);
    assert IdsBetween(s, lo, hi) == (if lo in s then [lo] else []) + rest;
    if x != lo {
      IdsBetweenComplete(s, lo + 1, hi, x);
      assert x in rest;
    }
  }

  /** Each id in the range is listed once. */
  lemma {:induction false} IdsBetweenCount(s: set<int>, lo: int, hi: int)
    ensures |IdsBetween(s, lo, hi)| == |set x | x in s && lo <= x < hi|
    decreases hi - lo
  {
    var here := set x | x in s && lo <= x < hi;
    if lo >= hi {
      assert here == {};
    } else {
      var later := set x | x in s && lo + 1 <= x < hi;
      IdsBetweenCount(s, lo + 1, hi);
      if lo in s {
        assert here == {lo} + later;
        assert lo !in later;
      } else {
        assert here == later;
      }
    }
  }

  /** The ids `query.all()` returns: every stored id, ascending. */
  function ListedIds<R>(t: Table<R>): (ks: seq<int>)
    requires t.Valid()
    ensures |ks| == |t.rows|
    ensures forall i :: 0 <= i < |ks| ==> ks[i] in t.rows
    ensures forall id :: id in t.rows ==> id in ks
    ensures forall i, j :: 0 <= i < j < |ks| ==> ks[i] < ks[j]
  {
    IdsBetweenCount(t.rows.Keys, 1, t.nextId);
    assert (set x | x in t.rows.Keys && 1 <= x < t.nextId) == t.rows.Keys;
    forall id | id in t.rows ensures id in IdsBetween(t.rows.Keys, 1, t.nextId) {
      IdsBetweenComplete(t.rows.Keys, 1, t.nextId, id);
    }
    IdsBetween(t.rows.Keys, 1, t.nextId)
  }

  /** `[ser(row) for row in Table.query.all()]`. */
  function Listing<R, D>(t: Table<R>, ser: (int, R) -> D): (out: seq<D>)
    requires t.Valid()
    ensures |out| == |t.rows|
    ensures forall i :: 0 <= i < |out| ==> out[i] == ser(ListedIds(t)[i], t.rows[ListedIds(t)[i]])
  {
    var ks := ListedIds(t);
    seq(|ks|, i requires 0 <= i < |ks| => ser(ks[i], t.rows[ks[i]]))
  }

  /** Every stored row appears in the listing, and the listing holds nothing else. */
  lemma ListingMembers<R, D>(t: Table<R>, ser: (int, R) -> D, d: D)
    requires t.Valid()
    ensures d in Listing(t, ser) <==> exists id :: id in t.rows && d == ser(id, t.rows[id])
  {
  }
}
