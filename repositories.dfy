/**
 * The record store behind the JPA repositories: a table of rows in
 * repository order, each with a store-assigned identifier. `FindById` is
 * `findById`; `Insert`, `Update` and `Delete` are `save` of a new entity,
 * `save` of a loaded entity and `delete`.
 */
module Repositories {
  import opened Wrappers
  import opened Ledger

  ghost predicate UniqueIds<T>(rows: seq<Row<T>>) {
    forall i, j :: 0 <= i < j < |rows| ==> rows[i].id != rows[j].id
  }

  /** The rows' values, in order. */
  function Values<T>(rows: seq<Row<T>>): (r: seq<T>)
    ensures |r| == |rows| && forall k :: 0 <= k < |rows| ==> r[k] == rows[k].value
  {
    seq(|rows|, k requires 0 <= k < |rows| => rows[k].value)
  }

  /** Position of the first row with identifier `id`, if any. */
  function IndexOf<T>(rows: seq<Row<T>>, id: nat): (r: Option<nat>)
    ensures r.Some? ==> r.value < |rows| && rows[r.value].id == id
    ensures r.Some? ==> forall j :: 0 <= j < r.value ==> rows[j].id != id
    ensures r.None? <==> forall j :: 0 <= j < |rows| ==> rows[j].id != id
  {
    if rows == [] then None
    else if rows[0].id == id then Some(0)
    else match IndexOf(rows[1..], id) {
      case None => None
      case Some(k) => Some(k + 1)
    }
  }

  /** `findById`: the record stored under `id`, or none. */
  function FindById<T>(rows: seq<Row<T>>, id: nat): Option<T> {
    match IndexOf(rows, id)
    case None => None
    case Some(k) => Some(rows[k].value)
  }

  /** With unique identifiers, the row at position i is the one found under its id. */
  lemma FindByIdAt<T>(rows: seq<Row<T>>, i: nat)
    requires UniqueIds(rows) && i < |rows|
    ensures IndexOf(rows, rows[i].id) == Some(i)
    ensures FindById(rows, rows[i].id) == Some(rows[i].value)
  {
  }

  /** Under unique identifiers, `FindById` answers by membership of the id. */
  lemma FindByIdSpec<T>(rows: seq<Row<T>>, id: nat)
    requires UniqueIds(rows)
    ensures FindById(rows, id).Some? <==> exists i :: 0 <= i < |rows| && rows[i].id == id
    ensures forall i :: 0 <= i < |rows| && rows[i].id == id ==> FindById(rows, id) == Some(rows[i].value)
  {
    forall i | 0 <= i < |rows| && rows[i].id == id
      ensures FindById(rows, id) == Some(rows[i].value)
    {
      FindByIdAt(rows, i);
    }
  }

  /** Appending a row with a new identifier adds exactly that record. */
  lemma FindByIdAppend<T>(rows: seq<Row<T>>, r: Row<T>)
    requires UniqueIds(rows) && forall i :: 0 <= i < |rows| ==> rows[i].id != r.id
    ensures UniqueIds(rows + [r])
    ensures forall j :: FindById(rows + [r], j) == if j == r.id then Some(r.value) else FindById(rows, j)
  {
    var s := rows + [r];
    forall j ensures FindById(s, j) == if j == r.id then Some(r.value) else FindById(rows, j) {
      FindByIdSpec(s, j);
      FindByIdSpec(rows, j);
      if j == r.id {
        assert s[|rows|].id == j;
      } else if exists i :: 0 <= i < |rows| && rows[i].id == j {
        var i :| 0 <= i < |rows| && rows[i].id == j;
        assert s[i] == rows[i];
      } else {
        assert forall i :: 0 <= i < |s| ==> s[i].id != j by {
          forall i | 0 <= i < |s| ensures s[i].id != j {
            if i < |rows| { assert s[i] == rows[i]; }
          }
        }
      }
    }
  }

  /** Replacing the row at k by one with the same identifier changes only that record. */
  lemma FindByIdReplace<T>(rows: seq<Row<T>>, k: nat, r: Row<T>)
    requires UniqueIds(rows) && k < |rows| && rows[k].id == r.id
    ensures UniqueIds(rows[k := r])
    ensures forall j {:trigger FindById(rows[k := r], j)} :: FindById(rows[k := r], j) == (if j == r.id then Some(r.value) else FindById(rows, j))
  {
    var s := rows[k := r];
    forall j ensures FindById(s, j) == if j == r.id then Some(r.value) else FindById(rows, j) {
      FindByIdSpec(s, j);
      FindByIdSpec(rows, j);
      if j == r.id {
        assert s[k].id == j;
      } else if exists i :: 0 <= i < |rows| && rows[i].id == j {
        var i :| 0 <= i < |rows| && rows[i].id == j;
        assert s[i] == rows[i];
      }
    }
  }

  /** Removing the row at k removes exactly that record. */
  lemma FindByIdRemove<T>(rows: seq<Row<T>>, k: nat)
    requires UniqueIds(rows) && k < |rows|
    ensures UniqueIds(rows[..k] + rows[k + 1..])
    ensures forall j :: FindById(rows[..k] + rows[k + 1..], j) ==
                       (if j == rows[k].id then None else FindById(rows, j))
  {
    var s := rows[..k] + rows[k + 1..];
    assert forall i :: 0 <= i < |s| ==> s[i] == if i < k then rows[i] else rows[i + 1];
    forall j ensures FindById(s, j) == if j == rows[k].id then None else FindById(rows, j) {
      FindByIdSpec(s, j);
      FindByIdSpec(rows, j);
      if exists i :: 0 <= i < |rows| && rows[i].id == j && i != k {
        var i :| 0 <= i < |rows| && rows[i].id == j && i != k;
        if i < k { assert s[i] == rows[i]; } else { assert s[i - 1] == rows[i]; }
      }
    }
  }

  /** Deleting the record just saved under a fresh identifier gives back the rows from before the save. */
  lemma {:induction false} DeleteUndoesInsert<T>(rows: seq<Row<T>>, r: Row<T>)
    requires forall i :: 0 <= i < |rows| ==> rows[i].id < r.id
    ensures IndexOf(rows + [r], r.id) == Some(|rows|)
    ensures var s := rows + [r]; s[..|rows|] + s[|rows| + 1..] == rows
  {
    var s := rows + [r];
    if rows == [] {
    } else {
      assert s[1..] == rows[1..] + [r];
      DeleteUndoesInsert(rows[1..], r);
    }
    assert s[..|rows|] == rows;
  }

  /** A repository table: its rows in repository order and the next identifier to assign. */
  class Table<T> {
    var rows: seq<Row<T>>
    var nextId: nat

    ghost predicate Valid()
      reads this
    {
      UniqueIds(rows) && forall i :: 0 <= i < |rows| ==> rows[i].id < nextId
    }

    constructor ()
      ensures Valid() && rows == [] && nextId == 1
    {
      rows := [];
      nextId := 1;
    }

    /** `save` of a new entity: it gets the next identifier and goes last. */
    method Insert(v: T) returns (id: nat)
      requires Valid()
      modifies this
      ensures Valid()
      ensures id == old(nextId) && nextId == old(nextId) + 1
      ensures rows == old(rows) + [Row(id, v)]
      ensures forall j :: FindById(rows, j) == if j == id then Some(v) else FindById(old(rows), j)
    {
      id := nextId;
      FindByIdAppend(rows, Row(id, v));
      rows := rows + [Row(id, v)];
      nextId := nextId + 1;
    }

    /** `save` of a loaded entity: its row takes the new field values in place. */
    method Update(id: nat, v: T)
      requires Valid() && IndexOf(rows, id).Some?
      modifies this
      ensures Valid() && nextId == old(nextId)
      ensures rows == old(rows)[IndexOf(old(rows), id).value := Row(id, v)]
      ensures forall j :: FindById(rows, j) == if j == id then Some(v) else FindById(old(rows), j)
    {
      var k := IndexOf(rows, id).value;
      FindByIdReplace(rows, k, Row(id, v));
      rows := rows[k := Row(id, v)];
    }

    /** `delete`: the row goes and the others keep their order. */
    method Delete(id: nat)
      requires Valid() && IndexOf(rows, id).Some?
      modifies this
      ensures Valid() && nextId == old(nextId)
      ensures var k := IndexOf(old(rows), id).value; rows == old(rows)[..k] + old(rows)[k + 1..]
      ensures forall j :: FindById(rows, j) == if j == id then None else FindById(old(rows), j)
    {
      var k := IndexOf(rows, id).value;
      FindByIdRemove(rows, k);
      rows := rows[..k] + rows[k + 1..];
    }
  }
}
