/**
 * The `locations` table behind data/local/dao/LocationDao.kt, held in memory.
 *
 * Room declares the primary key with `autoGenerate = true`, which makes the
 * column `INTEGER PRIMARY KEY AUTOINCREMENT` and binds the id as
 * `nullif(?, 0)`: a row inserted with id 0 receives a fresh id, larger than
 * every id the table has ever held (SQLite's `sqlite_sequence`, here
 * `nextId`), and deleting rows does not lower it.  `insertLocation` uses
 * `OnConflictStrategy.REPLACE`, so a row whose id is already present replaces
 * the stored one.
 */
module Dao {
  import opened Domain

  /**
   * The abstract state of the table: its rows in insertion order (a replaced
   * row keeps its place), and the next fresh id.
   */
  datatype Table = Table(rows: seq<LocationEntity>, nextId: int)

  function Ids(rows: seq<LocationEntity>): set<int> {
    set e | e in rows :: e.id
  }

  /** The table's invariant: ids are unique, none is 0, and all lie below the next fresh id. */
  ghost predicate WellFormed(t: Table) {
    && 1 <= t.nextId
    && (forall i, j :: 0 <= i < j < |t.rows| ==> t.rows[i].id != t.rows[j].id)
    && (forall i :: 0 <= i < |t.rows| ==> t.rows[i].id != UNASSIGNED_ID && t.rows[i].id < t.nextId)
  }

  /** The empty table a fresh database starts with. */
  const EmptyTable: Table := Table([], 1)

  /** Position of the row with primary key `id`, or `|rows|` when there is none. */
  function IndexOfId(rows: seq<LocationEntity>, id: int): (i: nat)
    ensures i <= |rows|
    ensures i < |rows| ==> rows[i].id == id
    ensures forall j :: 0 <= j < i ==> rows[j].id != id
    ensures i == |rows| <==> id !in Ids(rows)
  {
    if rows == [] then 0
    else if rows[0].id == id then 0
    else
      assert rows == [rows[0]] + rows[1..];
      1 + IndexOfId(rows[1..], id)
  }

  /**
   * `INSERT OR REPLACE INTO locations (...) VALUES (nullif(?, 0), ...)`: the
   * counter never goes back, at most one row is added, and the stored row (with
   * its assigned id) is present afterwards.
   */
  function Insert(t: Table, e: LocationEntity): (r: Table)
    ensures r.nextId >= t.nextId
    ensures |r.rows| == |t.rows| || |r.rows| == |t.rows| + 1
    ensures e.id == UNASSIGNED_ID ==> e.(id := t.nextId) in r.rows
    ensures e.id != UNASSIGNED_ID ==> e in r.rows
  {
    if e.id == UNASSIGNED_ID then
      Table(t.rows + [e.(id := t.nextId)], t.nextId + 1)
    else
      var i := IndexOfId(t.rows, e.id);
      var rows := if i < |t.rows| then t.rows[i := e] else t.rows + [e];
      assert rows[if i < |t.rows| then i else |t.rows|] == e;
      Table(rows, if e.id < t.nextId then t.nextId else e.id + 1)
  }

  /** `DELETE FROM locations`: every row goes, the id sequence stays. */
  function Cleared(t: Table): (r: Table)
    ensures r.rows == [] && r.nextId == t.nextId
  {
    Table([], t.nextId)
  }

  /** Timestamps never decrease along `s`. */
  predicate SortedByTimestamp(s: seq<LocationEntity>) {
    forall i, j :: 0 <= i < j < |s| ==> s[i].timestamp <= s[j].timestamp
  }

  /** A row no later than the head of a sorted list can go in front of it. */
  lemma ConsSorted(x: LocationEntity, s: seq<LocationEntity>)
    requires SortedByTimestamp(s)
    requires s == [] || x.timestamp <= s[0].timestamp
    ensures SortedByTimestamp([x] + s)
  {
  }

  /**
   * Puts `e` before the first row of `s` that is not earlier than it, so rows
   * with an equal timestamp end up behind `e`.
   */
  function InsertByTimestamp(e: LocationEntity, s: seq<LocationEntity>): (r: seq<LocationEntity>)
    requires SortedByTimestamp(s)
    ensures SortedByTimestamp(r)
    ensures multiset(r) == multiset(s) + multiset{e}
    ensures r[0] == e || (s != [] && r[0] == s[0])
  {
    if s == [] || e.timestamp <= s[0].timestamp then
      ConsSorted(e, s);
      [e] + s
    else
      assert s == [s[0]] + s[1..];
      assert SortedByTimestamp(s[1..]);
      var rest := InsertByTimestamp(e, s[1..]);
      ConsSorted(s[0], rest);
      [s[0]] + rest
  }

  /**
   * The order `SELECT * FROM locations ORDER BY timestamp ASC` produces: rows
   * with equal timestamps keep their insertion order (SQL itself leaves that order open).
   */
  function SortByTimestamp(rows: seq<LocationEntity>): (r: seq<LocationEntity>)
    ensures SortedByTimestamp(r)
    ensures multiset(r) == multiset(rows)
  {
    if rows == [] then []
    else
      assert rows == [rows[0]] + rows[1..];
      InsertByTimestamp(rows[0], SortByTimestamp(rows[1..]))
  }

  /** A well-formed table stays well-formed under every insert. */
  lemma InsertWellFormed(t: Table, e: LocationEntity)
    requires WellFormed(t)
    ensures WellFormed(Insert(t, e))
  {
  }

  /**
   * REPLACE on an existing id: the row with that id now holds `e`, the row
   * count and the next fresh id are unchanged, and every other row stays where it was.
   */
  lemma InsertExistingReplaces(t: Table, e: LocationEntity)
    requires WellFormed(t)
    requires e.id != UNASSIGNED_ID && e.id in Ids(t.rows)
    ensures var r := Insert(t, e); var i := IndexOfId(t.rows, e.id);
      && |r.rows| == |t.rows|
      && i < |t.rows| && r.rows[i] == e
      && (forall j :: 0 <= j < |t.rows| && j != i ==> r.rows[j] == t.rows[j])
      && r.nextId == t.nextId
  {
  }

  /**
   * An insert with id 0 appends one row carrying a fresh id that no stored row
   * has; the rows already there are unchanged.
   */
  lemma InsertUnassignedAppends(t: Table, e: LocationEntity)
    requires WellFormed(t)
    requires e.id == UNASSIGNED_ID
    ensures var r := Insert(t, e);
      && |r.rows| == |t.rows| + 1
      && r.rows[..|t.rows|] == t.rows
      && r.rows[|t.rows|] == e.(id := t.nextId)
      && t.nextId !in Ids(t.rows)
  {
  }

  /**
   * After an insert the listing is still ordered and holds the stored row:
   * `e` with its id assigned when it had none.
   */
  lemma InsertedRowListed(t: Table, e: LocationEntity)
    ensures var listing := SortByTimestamp(Insert(t, e).rows);
      && SortedByTimestamp(listing)
      && (if e.id == UNASSIGNED_ID then e.(id := t.nextId) else e) in listing
  {
    var stored := if e.id == UNASSIGNED_ID then e.(id := t.nextId) else e;
    var rows := Insert(t, e).rows;
    assert stored in rows by {
      if e.id != UNASSIGNED_ID {
        var i := IndexOfId(t.rows, e.id);
        if i < |t.rows| {
          assert rows[i] == e;
        } else {
          assert rows[|t.rows|] == e;
        }
      } else {
        assert rows[|t.rows|] == stored;
      }
    }
    assert stored in multiset(rows);
  }

  /** After `clearAllLocations` the listing is empty, whatever the table held. */
  lemma ClearedListsNothing(t: Table)
    ensures SortByTimestamp(Cleared(t).rows) == []
  {
  }

  /**
   * The in-memory table.  `rows` and `nextId` are what SQLite keeps on disk;
   * the methods are the three DAO operations.
   */
  class LocationDao {
    var rows: seq<LocationEntity>
    var nextId: int

    ghost function State(): Table
      reads this
    {
      Table(rows, nextId)
    }

    ghost predicate Valid()
      reads this
    {
      WellFormed(State())
    }

    /** An empty database. */
    constructor ()
      ensures Valid() && State() == EmptyTable
    {
      rows := [];
      nextId := 1;
    }

    /** `insertLocation`: REPLACE on the id, a fresh id for id 0. */
    method InsertLocation(e: LocationEntity)
      requires Valid()
      modifies this
      ensures Valid()
      ensures State() == Insert(old(State()), e)
    {
      InsertWellFormed(State(), e);
      if e.id == UNASSIGNED_ID {
        rows := rows + [e.(id := nextId)];
        nextId := nextId + 1;
      } else {
        var i := IndexOfId(rows, e.id);
        if i < |rows| {
          rows := rows[i := e];
        } else {
          rows := rows + [e];
        }
        if nextId <= e.id {
          nextId := e.id + 1;
        }
      }
    }

    /** `getAllLocations`, one snapshot of the live query: every stored row, oldest first. */
    method GetAllLocations() returns (r: seq<LocationEntity>)
      ensures SortedByTimestamp(r)
      ensures multiset(r) == multiset(rows)
      ensures r == SortByTimestamp(rows)
    {
      r := SortByTimestamp(rows);
    }

    /** `clearAllLocations`: `DELETE FROM locations`. */
    method ClearAllLocations()
      requires Valid()
      modifies this
      ensures Valid()
      ensures State() == Cleared(old(State()))
    {
      rows := [];
    }
  }
}
