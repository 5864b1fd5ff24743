/**
 * The task table behind `TaskRepository`: rows keyed by generated id, the derived query
 * `findAllByOrderByUrgentDesc` and the update query `setTaskCompleted`.
 */
module Repository {
  import opened Wrappers
  import opened TaskModel

  /**
   * The table's contents: the rows by id, and the next id the generator hands out.
   * Generated ids start at 1 and are never handed out twice.
   */
  datatype Table = Table(rows: map<int, TaskRecord>, nextId: int) {

    /** Every row carries its key as id, and every key is an id the generator already handed out. */
    ghost predicate Valid() {
      && nextId >= 1
      && forall k :: k in rows ==> rows[k].id == Some(k) && 1 <= k < nextId
    }
  }

  const EmptyTable := Table(map[], 1)

  /** The key a successful save writes: the task's own id when that row exists, otherwise a new one. */
  function SaveKey(tb: Table, t: TaskRecord): int {
    if t.id.Some? && t.id.value in tb.rows then t.id.value else tb.nextId
  }

  /** The table after a successful save of t: an update of the row with t's id, or an insert under a new id. */
  function Saved(tb: Table, t: TaskRecord): (r: Table)
    requires tb.Valid()
    ensures r.Valid()
    ensures r.rows.Keys == tb.rows.Keys + {SaveKey(tb, t)}
    ensures r.rows[SaveKey(tb, t)] == t.(id := Some(SaveKey(tb, t)))
    ensures forall k :: k in tb.rows && k != SaveKey(tb, t) ==> r.rows[k] == tb.rows[k]
    ensures t.id.Some? && t.id.value in tb.rows ==> SaveKey(tb, t) == t.id.value && r.rows[t.id.value] == t
    ensures !(t.id.Some? && t.id.value in tb.rows) ==> SaveKey(tb, t) !in tb.rows && |r.rows| == |tb.rows| + 1
  {
    var k := SaveKey(tb, t);
    if k in tb.rows then Table(tb.rows[k := t], tb.nextId)
    else Table(tb.rows[k := t.(id := Some(k))], tb.nextId + 1)
  }

  /** The table without the row with that id. */
  function Removed(tb: Table, id: int): (r: Table)
    requires tb.Valid()
    ensures r.Valid()
    ensures r.rows.Keys == tb.rows.Keys - {id}
    ensures forall k :: k in r.rows ==> r.rows[k] == tb.rows[k]
    ensures id in tb.rows ==> |r.rows| == |tb.rows| - 1
    ensures id !in tb.rows ==> r == tb
  {
    Table(tb.rows - {id}, tb.nextId)
  }

  /** The table after `update Task t set t.completed = c where t.id = id`. */
  function WithCompleted(tb: Table, c: bool, id: int): (r: Table)
    requires tb.Valid()
    ensures r.Valid()
    ensures r.rows.Keys == tb.rows.Keys && r.nextId == tb.nextId
    ensures forall k :: k in tb.rows && k != id ==> r.rows[k] == tb.rows[k]
    ensures id in tb.rows ==> r.rows[id].completed == c && r.rows[id].(completed := tb.rows[id].completed) == tb.rows[id]
    ensures id !in tb.rows ==> r == tb
  {
    if id in tb.rows then Table(tb.rows[id := tb.rows[id].(completed := c)], tb.nextId) else tb
  }

  /** The number of rows the update query's `where t.id = id` matches. */
  function UpdatedCount(tb: Table, id: int): (n: int)
    requires tb.Valid()
    ensures n == |set k | k in tb.rows && tb.rows[k].id == Some(id)|
    ensures n == 1 <==> id in tb.rows
    ensures n == 0 <==> id !in tb.rows
  {
    var matched := set k | k in tb.rows && tb.rows[k].id == Some(id);
    assert forall k :: k in matched <==> k == id && id in tb.rows;
    if id in tb.rows then
      assert matched == {id};
      1
    else
      assert matched == {};
      0
  }

  /** r lists every stored row exactly once and nothing else. */
  ghost predicate ListsEachRowOnce(r: seq<TaskRecord>, rows: map<int, TaskRecord>) {
    && (forall i :: 0 <= i < |r| ==> r[i].id.Some? && r[i].id.value in rows && rows[r[i].id.value] == r[i])
    && (forall k :: k in rows ==> rows[k] in r)
    && (forall i, j :: 0 <= i < j < |r| ==> r[i].id != r[j].id)
  }

  /** Every urgent task comes before every task that is not urgent. */
  ghost predicate UrgentFirst(r: seq<TaskRecord>) {
    forall i, j :: 0 <= i < j < |r| ==> r[i].urgent || !r[j].urgent
  }

  /** The stored ids from 0 up to, not including, n, in ascending order. */
  function IdsBelow(rows: map<int, TaskRecord>, n: int): (ids: seq<int>)
    ensures forall i :: 0 <= i < |ids| ==> ids[i] in rows && 0 <= ids[i] < n
    ensures forall k :: k in rows && 0 <= k < n ==> k in ids
    ensures forall i, j :: 0 <= i < j < |ids| ==> ids[i] < ids[j]
    decreases n
  {
    if n <= 0 then [] else IdsBelow(rows, n - 1) + (if n - 1 in rows then [n - 1] else [])
  }

  /** The ids of `ids` whose row has the given urgency, in their order in `ids`. */
  function IdsWithUrgency(rows: map<int, TaskRecord>, ids: seq<int>, urgent: bool): (r: seq<int>)
    requires forall i :: 0 <= i < |ids| ==> ids[i] in rows
    requires forall i, j :: 0 <= i < j < |ids| ==> ids[i] < ids[j]
    ensures forall i :: 0 <= i < |r| ==> r[i] in rows && rows[r[i]].urgent == urgent
    ensures forall i :: 0 <= i < |ids| && rows[ids[i]].urgent == urgent ==> ids[i] in r
    ensures forall i, j :: 0 <= i < j < |r| ==> r[i] < r[j]
    ensures |ids| > 0 ==> forall i :: 0 <= i < |r| ==> ids[0] <= r[i]
  {
    if ids == [] then []
    else
      var rest := IdsWithUrgency(rows, ids[1..], urgent);
      if rows[ids[0]].urgent == urgent then [ids[0]] + rest else rest
  }

  /** The rows stored under `ids`, in that order. */
  function RowsAt(rows: map<int, TaskRecord>, ids: seq<int>): (r: seq<TaskRecord>)
    requires forall i :: 0 <= i < |ids| ==> ids[i] in rows
    ensures |r| == |ids|
    ensures forall i :: 0 <= i < |ids| ==> r[i] == rows[ids[i]]
  {
    if ids == [] then [] else [rows[ids[0]]] + RowsAt(rows, ids[1..])
  }

  /** The stored ids, those of urgent rows first, each group by ascending id. */
  function IdsUrgentFirst(tb: Table): (ids: seq<int>)
    requires tb.Valid()
    ensures forall i :: 0 <= i < |ids| ==> ids[i] in tb.rows
    ensures forall k :: k in tb.rows ==> k in ids
    ensures forall i, j :: 0 <= i < j < |ids| ==> ids[i] != ids[j]
    ensures forall i, j :: 0 <= i < j < |ids| ==> tb.rows[ids[i]].urgent || !tb.rows[ids[j]].urgent
  {
    var all := IdsBelow(tb.rows, tb.nextId);
    var urgent := IdsWithUrgency(tb.rows, all, true);
    var other := IdsWithUrgency(tb.rows, all, false);
    UrgentThenOther(tb.rows, all, urgent, other);
    urgent + other
  }

  lemma UrgentThenOther(rows: map<int, TaskRecord>, all: seq<int>, urgent: seq<int>, other: seq<int>)
    requires forall i :: 0 <= i < |all| ==> all[i] in rows
    requires forall k :: k in rows ==> k in all
    requires forall i :: 0 <= i < |urgent| ==> urgent[i] in rows && rows[urgent[i]].urgent
    requires forall i :: 0 <= i < |other| ==> other[i] in rows && !rows[other[i]].urgent
    requires forall i :: 0 <= i < |all| && rows[all[i]].urgent ==> all[i] in urgent
    requires forall i :: 0 <= i < |all| && !rows[all[i]].urgent ==> all[i] in other
    requires forall i, j :: 0 <= i < j < |urgent| ==> urgent[i] < urgent[j]
    requires forall i, j :: 0 <= i < j < |other| ==> other[i] < other[j]
    ensures forall i :: 0 <= i < |urgent + other| ==> (urgent + other)[i] in rows
    ensures forall k :: k in rows ==> k in urgent + other
    ensures forall i, j :: 0 <= i < j < |urgent + other| ==> (urgent + other)[i] != (urgent + other)[j]
    ensures forall i, j :: 0 <= i < j < |urgent + other| ==> rows[(urgent + other)[i]].urgent || !rows[(urgent + other)[j]].urgent
  {
  }


  /**
   * `findAllByOrderByUrgentDesc`: all rows, urgent ones first. The database leaves the order
   * among rows of equal urgency open; this model lists them by ascending id.
   */
  function OrderByUrgentDesc(tb: Table): (r: seq<TaskRecord>)
    requires tb.Valid()
    ensures ListsEachRowOnce(r, tb.rows)
    ensures UrgentFirst(r)
  {
    var ids := IdsUrgentFirst(tb);
    var r := RowsAt(tb.rows, ids);
    RowsAtListsEachRowOnce(tb, ids, r);
    r
  }

  lemma RowsAtListsEachRowOnce(tb: Table, ids: seq<int>, r: seq<TaskRecord>)
    requires tb.Valid()
    requires forall i :: 0 <= i < |ids| ==> ids[i] in tb.rows
    requires forall k :: k in tb.rows ==> k in ids
    requires forall i, j :: 0 <= i < j < |ids| ==> ids[i] != ids[j]
    requires forall i, j :: 0 <= i < j < |ids| ==> tb.rows[ids[i]].urgent || !tb.rows[ids[j]].urgent
    requires |r| == |ids| && forall i :: 0 <= i < |ids| ==> r[i] == tb.rows[ids[i]]
    ensures ListsEachRowOnce(r, tb.rows)
    ensures UrgentFirst(r)
  {
  }


  /** The repository: the table, changed in place by `save`, `delete` and `setTaskCompleted`. */
  class TaskRepository {
    var table: Table

    ghost predicate Valid()
      reads this
    {
      table.Valid()
    }

    constructor ()
      ensures Valid() && table == EmptyTable
    {
      table := EmptyTable;
    }

    /**
     * `save`: stores t when its text satisfies the column constraints and returns the stored
     * row; otherwise the save raises an exception (`None`) and the table stays as it was.
     */
    method Save(t: TaskRecord) returns (saved: Option<TaskRecord>)
      requires Valid()
      modifies this
      ensures Valid()
      ensures Persistable(t) ==> table == Saved(old(table), t) && saved == Some(table.rows[SaveKey(old(table), t)])
      ensures !Persistable(t) ==> table == old(table) && saved == None
    {
      if Persistable(t) {
        var k := SaveKey(table, t);
        table := Saved(table, t);
        saved := Some(table.rows[k]);
      } else {
        saved := None;
      }
    }

    /** `findById` for a non-null id. */
    method FindById(id: int) returns (r: Option<TaskRecord>)
      ensures r.Some? <==> id in table.rows
      ensures r.Some? ==> r.value == table.rows[id]
    {
      r := if id in table.rows then Some(table.rows[id]) else None;
    }

    /** `delete(entity)`: removes the row with the entity's id; a null id or a missing row removes nothing. */
    method Delete(t: TaskRecord)
      requires Valid()
      modifies this
      ensures Valid()
      ensures t.id.Some? ==> table == Removed(old(table), t.id.value)
      ensures t.id.None? ==> table == old(table)
    {
      if t.id.Some? {
        table := Removed(table, t.id.value);
      }
    }

    method FindAllByOrderByUrgentDesc() returns (r: seq<TaskRecord>)
      requires Valid()
      ensures r == OrderByUrgentDesc(table)
      ensures ListsEachRowOnce(r, table.rows)
      ensures UrgentFirst(r)
    {
      r := OrderByUrgentDesc(table);
    }

    /** `setTaskCompleted(c, id)`: sets one column of at most one row and returns how many rows the query matched. */
    method SetTaskCompleted(c: bool, id: int) returns (count: int)
      requires Valid()
      modifies this
      ensures Valid()
      ensures table == WithCompleted(old(table), c, id)
      ensures count == UpdatedCount(old(table), id)
    {
      count := UpdatedCount(table, id);
      table := WithCompleted(table, c, id);
    }
  }
}
