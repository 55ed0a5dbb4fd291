/**
 * One table of the relational store as the services see it through the ORM:
 * `findUnique` by id, `create` with an auto-incremented id, `update`, `delete` and
 * `findMany` with a filter and an ordering.
 */
module Store {
  import opened Outcomes
  import Js

  /**
   * The value a nullable text column keeps for a request value: `undefined` and `null` leave
   * it null, a string is kept as it is, and None means the store rejects the value with an
   * exception of its own.
   */
  function NullableText(v: Js.Value): Option<Option<string>> {
    match v
    case Undefined => Some(None)
    case Null => Some(None)
    case Str(s) => Some(Some(s))
    case _ => None
  }

  /** A stored record together with the id the store assigned to it. */
  datatype Row<T> = Row(id: int, val: T)

  /** `orderBy: { id: 'asc' }`. */
  function IdOf<T>(row: Row<T>): int {
    row.id
  }

  /** A `findMany` without a `where`. */
  predicate Every<T>(row: Row<T>) {
    true
  }

  /** `s` is ordered by `key`, smallest first. */
  ghost predicate SortedBy<T>(s: seq<Row<T>>, key: Row<T> -> int) {
    forall i, j :: 0 <= i < j < |s| ==> key(s[i]) <= key(s[j])
  }

  /** No two rows of `s` share an id. */
  ghost predicate DistinctIds<T>(s: seq<Row<T>>) {
    forall i, j :: 0 <= i < j < |s| ==> s[i].id != s[j].id
  }

  /** Where `x` goes in `s` to keep it ordered by `key`: after every row whose key is not larger. */
  function InsertionPoint<T>(s: seq<Row<T>>, x: Row<T>, key: Row<T> -> int): (k: nat)
    requires SortedBy(s, key)
    ensures k <= |s|
    ensures forall i :: 0 <= i < k ==> key(s[i]) <= key(x)
    ensures forall i :: k <= i < |s| ==> key(x) < key(s[i])
  {
    if s == [] || key(x) < key(s[0]) then 0
    else 1 + InsertionPoint(s[1..], x, key)
  }

  /** `x` inserted into the ordered `s` so that the result is ordered and holds exactly one more row. */
  function InsertSorted<T>(s: seq<Row<T>>, x: Row<T>, key: Row<T> -> int): (r: seq<Row<T>>)
    requires SortedBy(s, key) && DistinctIds(s)
    requires forall i :: 0 <= i < |s| ==> s[i].id != x.id
    ensures SortedBy(r, key) && DistinctIds(r)
    ensures x in r && forall i :: 0 <= i < |s| ==> s[i] in r
    ensures forall i :: 0 <= i < |r| ==> r[i] == x || r[i] in s
  {
    var k := InsertionPoint(s, x, key);
    InsertAtPreserves(s, x, key, k);
    s[..k] + [x] + s[k..]
  }

  lemma InsertAtPreserves<T>(s: seq<Row<T>>, x: Row<T>, key: Row<T> -> int, k: nat)
    requires SortedBy(s, key) && DistinctIds(s)
    requires forall i :: 0 <= i < |s| ==> s[i].id != x.id
    requires k <= |s|
    requires forall i :: 0 <= i < k ==> key(s[i]) <= key(x)
    requires forall i :: k <= i < |s| ==> key(x) < key(s[i])
    ensures var r := s[..k] + [x] + s[k..];
      && SortedBy(r, key) && DistinctIds(r)
      && x in r && (forall i :: 0 <= i < |s| ==> s[i] in r)
      && (forall i :: 0 <= i < |r| ==> r[i] == x || r[i] in s)
  {
    var r := s[..k] + [x] + s[k..];
    InsertAtIndexing(s, x, k);
    forall i, j | 0 <= i < j < |r| ensures key(r[i]) <= key(r[j]) && r[i].id != r[j].id {
      if j < k {
        assert r[i] == s[i] && r[j] == s[j];
      } else if j == k {
        assert r[i] == s[i];
      } else if i < k {
        assert r[i] == s[i] && r[j] == s[j - 1];
      } else if i == k {
        assert r[j] == s[j - 1];
      } else {
        assert r[i] == s[i - 1] && r[j] == s[j - 1];
      }
    }
    forall i | 0 <= i < |s| ensures s[i] in r {
      if i < k { assert r[i] == s[i]; } else { assert r[i + 1] == s[i]; }
    }
    forall i | 0 <= i < |r| ensures r[i] == x || r[i] in s {
      if i < k { assert r[i] == s[i]; } else if i > k { assert r[i] == s[i - 1]; }
    }
  }

  /** Where each row of `s` lands once `x` is inserted at position `k`. */
  lemma InsertAtIndexing<T>(s: seq<Row<T>>, x: Row<T>, k: nat)
    requires k <= |s|
    ensures var r := s[..k] + [x] + s[k..];
      && |r| == |s| + 1 && r[k] == x
      && (forall i :: 0 <= i < k ==> r[i] == s[i])
      && (forall i :: k < i < |r| ==> r[i] == s[i - 1])
  {
  }

  class Table<T> {
    var rows: map<int, T>
    var nextId: int

    /** Every stored id lies below the next one to be handed out, so a new id is always fresh. */
    ghost predicate Valid()
      reads this
    {
      1 <= nextId && forall id :: id in rows ==> 1 <= id < nextId
    }

    constructor ()
      ensures Valid() && rows == map[] && nextId == 1
    {
      rows := map[];
      nextId := 1;
    }

    /** `findUnique({ where: { id } })`. */
    function Find(id: int): (r: Option<Row<T>>)
      reads this
      ensures r.Some? <==> id in rows
      ensures r.Some? ==> r.value == Row(id, rows[id])
    {
      if id in rows then Some(Row(id, rows[id])) else None
    }

    /** `create({ data })`: stores `x` under a fresh id and returns the new row. */
    method Insert(x: T) returns (row: Row<T>)
      requires Valid()
      modifies this
      ensures Valid()
      ensures row == Row(old(nextId), x) && row.id !in old(rows)
      ensures rows == old(rows)[row.id := x]
      ensures nextId == old(nextId) + 1
    {
      row := Row(nextId, x);
      rows := rows[nextId := x];
      nextId := nextId + 1;
    }

    /** `update({ where: { id }, data })` on a row known to exist. */
    method Update(id: int, x: T) returns (row: Row<T>)
      requires Valid() && id in rows
      modifies this
      ensures Valid()
      ensures row == Row(id, x)
      ensures rows == old(rows)[id := x] && nextId == old(nextId)
    {
      rows := rows[id := x];
      row := Row(id, x);
    }

    /** `delete({ where: { id } })` on a row known to exist; returns the deleted row. */
    method Delete(id: int) returns (row: Row<T>)
      requires Valid() && id in rows
      modifies this
      ensures Valid()
      ensures row == Row(id, old(rows)[id])
      ensures rows == old(rows) - {id} && nextId == old(nextId)
    {
      row := Row(id, rows[id]);
      rows := rows - {id};
    }

    /**
     * `findMany({ where, orderBy })`: every row that `keep` accepts, each exactly once,
     * ordered by `key`. Rows with equal keys come in no particular order.
     */
    method Select(keep: Row<T> -> bool, key: Row<T> -> int) returns (s: seq<Row<T>>)
      requires Valid()
      ensures IsSelection(rows, keep, key, s)
    {
      s := [];
      var next := 1;
      while next < nextId
        invariant 1 <= next <= nextId
        invariant SelectedBelow(rows, keep, key, s, next)
      {
        if next in rows && keep(Row(next, rows[next])) {
          SelectAccepts(rows, keep, key, s, next);
          s := InsertSorted(s, Row(next, rows[next]), key);
        } else {
          SelectSkips(rows, keep, key, s, next);
        }
        next := next + 1;
      }
      SelectedAll(rows, keep, key, s, next);
    }
  }

  /**
   * `s` is the answer to `findMany` with filter `keep` and ordering `key` over `rows`: stored
   * rows that `keep` accepts, every such row, no row twice, ordered by `key`.
   */
  ghost predicate IsSelection<T>(rows: map<int, T>, keep: Row<T> -> bool, key: Row<T> -> int, s: seq<Row<T>>) {
    && (forall i :: 0 <= i < |s| ==> s[i].id in rows && s[i].val == rows[s[i].id] && keep(s[i]))
    && (forall id :: id in rows && keep(Row(id, rows[id])) ==> exists i :: 0 <= i < |s| && s[i].id == id)
    && DistinctIds(s) && SortedBy(s, key)
  }

  /** Two filters that accept the same rows select the same rows. */
  lemma SelectionUnderSameFilter<T>(rows: map<int, T>, keep: Row<T> -> bool, keep': Row<T> -> bool,
                                    key: Row<T> -> int, s: seq<Row<T>>)
    requires IsSelection(rows, keep, key, s)
    requires forall row: Row<T> :: keep(row) == keep'(row)
    ensures IsSelection(rows, keep', key, s)
  {
  }

  /** `s` is what `Select` has gathered once it has looked at every id below `next`. */
  ghost predicate SelectedBelow<T>(rows: map<int, T>, keep: Row<T> -> bool, key: Row<T> -> int, s: seq<Row<T>>, next: int) {
    && (forall i :: 0 <= i < |s| ==> s[i].id in rows && s[i].val == rows[s[i].id] && keep(s[i]) && s[i].id < next)
    && (forall id :: id in rows && id < next && keep(Row(id, rows[id])) ==> Row(id, rows[id]) in s)
    && DistinctIds(s) && SortedBy(s, key)
  }

  lemma SelectAccepts<T>(rows: map<int, T>, keep: Row<T> -> bool, key: Row<T> -> int, s: seq<Row<T>>, next: int)
    requires SelectedBelow(rows, keep, key, s, next)
    requires next in rows && keep(Row(next, rows[next]))
    ensures forall i :: 0 <= i < |s| ==> s[i].id != next
    ensures SelectedBelow(rows, keep, key, InsertSorted(s, Row(next, rows[next]), key), next + 1)
  {
    var s' := InsertSorted(s, Row(next, rows[next]), key);
    forall id | id in rows && id < next + 1 && keep(Row(id, rows[id])) ensures Row(id, rows[id]) in s' {
      if id < next {
        var i :| 0 <= i < |s| && s[i] == Row(id, rows[id]);
      }
    }
  }

  lemma SelectSkips<T>(rows: map<int, T>, keep: Row<T> -> bool, key: Row<T> -> int, s: seq<Row<T>>, next: int)
    requires SelectedBelow(rows, keep, key, s, next)
    requires !(next in rows && keep(Row(next, rows[next])))
    ensures SelectedBelow(rows, keep, key, s, next + 1)
  {
  }

  lemma SelectedAll<T>(rows: map<int, T>, keep: Row<T> -> bool, key: Row<T> -> int, s: seq<Row<T>>, next: int)
    requires SelectedBelow(rows, keep, key, s, next)
    requires forall id :: id in rows ==> id < next
    ensures IsSelection(rows, keep, key, s)
  {
    forall id | id in rows && keep(Row(id, rows[id]))
      ensures exists i :: 0 <= i < |s| && s[i].id == id
    {
      var i :| 0 <= i < |s| && s[i] == Row(id, rows[id]);
    }
  }
}
