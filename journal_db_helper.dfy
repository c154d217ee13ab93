/**
 * The journal database and its helper. `Database` is the state of the SQLite
 * file as far as the `thoughts` table is concerned (whether it exists, its
 * rows, and its AUTOINCREMENT counter) with the raw insert, update, delete
 * and query the provider calls; `DbHelper` is the helper's table lifecycle:
 * create the table, and drop it on upgrade.
 */
module JournalDbHelper {
  import opened Wrappers
  import opened JournalContract
  import opened JournalTable

  /** The declared schema version. */
  const DatabaseVersion: nat := 1

  /**
   * What `SQLiteDatabase` throws: SQLite's errors for a statement on a missing
   * table, a NOT NULL violation and `CREATE TABLE` of an existing table, and
   * `EmptyValues`, the IllegalArgumentException `update` raises for empty
   * values before any SQL is compiled.
   */
  datatype SqlError = NoSuchTable | NotNullConstraint | TableAlreadyExists | EmptyValues

  class Database {
    var tableExists: bool
    var rows: Table
    /** The table's `sqlite_sequence` entry: the largest id ever issued, 0 for none. */
    var sequence: nat
    /** Every id assigned since the table was created. */
    ghost var issued: set<nat>

    ghost predicate Valid()
      reads this
    {
      && rows.Keys <= issued
      && (forall id :: id in issued ==> 0 < id <= sequence)
      && (!tableExists ==> rows == map[] && sequence == 0 && issued == {})
    }

    /** A new database file holds no table. */
    constructor ()
      ensures Valid() && !tableExists
    {
      tableExists := false;
      rows := map[];
      sequence := 0;
      issued := {};
    }

    /**
     * `SQLiteDatabase.insert`: it catches SQL errors and returns -1 instead, so
     * -1 is the answer for a missing table, a NOT NULL column left absent or
     * null, and a storage failure (`storageFails`). Otherwise the row gets the
     * id one above the largest ever issued.
     */
    method Insert(values: ContentValues, storageFails: bool) returns (id: int)
      requires Valid()
      modifies this
      ensures Valid() && tableExists == old(tableExists)
      ensures id == -1 <==> !old(tableExists) || !Complete(values) || storageFails
      ensures id == -1 ==> unchanged(this)
      ensures id != -1 ==>
        && id == old(sequence) + 1
        && id !in old(issued)
        && (forall a :: a in old(issued) ==> a < id)
        && rows == old(rows)[id := RowOf(values)]
        && sequence == id
        && issued == old(issued) + {id}
    {
      if !tableExists || !Complete(values) || storageFails {
        return -1;
      }
      sequence := sequence + 1;
      id := sequence;
      rows := rows[id := RowOf(values)];
      issued := issued + {id};
    }

    /**
     * `SQLiteDatabase.update`: the number of matched rows. SQLite checks NOT
     * NULL on the rows it writes, so null values fail only if some row matches.
     */
    method Update(values: ContentValues, f: Filter) returns (r: Result<nat, SqlError>)
      requires Valid()
      modifies this
      ensures Valid()
      ensures tableExists == old(tableExists) && sequence == old(sequence) && issued == old(issued)
      ensures |values| == 0 ==> r == Failure(EmptyValues)
      ensures |values| > 0 && !old(tableExists) ==> r == Failure(NoSuchTable)
      ensures |values| > 0 && old(tableExists) && (NonNull(values) || Selected(old(rows), f) == {}) ==> r.Success?
      ensures |values| > 0 && old(tableExists) && Selected(old(rows), f) != {} && !NonNull(values)
              ==> r == Failure(NotNullConstraint)
      ensures r.Failure? ==> unchanged(this)
      ensures r.Success? ==> r.value == |Selected(old(rows), f)|
      ensures r.Success? && NonNull(values) ==> rows == UpdatedTable(old(rows), values, f)
      ensures r.Success? && !NonNull(values) ==> rows == old(rows) && r.value == 0
    {
      if |values| == 0 {
        return Failure(EmptyValues);
      }
      if !tableExists {
        return Failure(NoSuchTable);
      }
      var matched := Selected(rows, f);
      if !NonNull(values) {
        if matched != {} {
          return Failure(NotNullConstraint);
        }
        return Success(0);
      }
      rows := UpdatedTable(rows, values, f);
      r := Success(|matched|);
    }

    /** `SQLiteDatabase.delete`: removes the matched rows and returns how many there were. */
    method Delete(f: Filter) returns (r: Result<nat, SqlError>)
      requires Valid()
      modifies this
      ensures Valid()
      ensures tableExists == old(tableExists) && sequence == old(sequence) && issued == old(issued)
      ensures !old(tableExists) ==> r == Failure(NoSuchTable) && unchanged(this)
      ensures old(tableExists) ==>
        && r == Success(|Selected(old(rows), f)|)
        && rows == DeletedTable(old(rows), f)
    {
      if !tableExists {
        return Failure(NoSuchTable);
      }
      r := Success(|Selected(rows, f)|);
      rows := DeletedTable(rows, f);
    }

    /** `SQLiteDatabase.query`, without projection and sort order: the matched rows. */
    function Query(f: Filter): (r: Result<Table, SqlError>)
      reads this
      ensures !tableExists <==> r == Failure(NoSuchTable)
      ensures r.Success? <==> tableExists
      ensures r.Success? ==> r.value.Keys == Selected(rows, f)
                             && forall id :: id in r.value ==> r.value[id] == rows[id]
    {
      if tableExists then Success(Restrict(rows, f)) else Failure(NoSuchTable)
    }
  }

  class DbHelper {
    /** The version the helper is constructed with. */
    const version: nat
    /** The database the helper opens. */
    const db: Database

    constructor (db: Database)
      ensures this.db == db && version == DatabaseVersion
    {
      this.db := db;
      version := DatabaseVersion;
    }

    /**
     * `onCreate`: `CREATE TABLE thoughts (_id INTEGER PRIMARY KEY AUTOINCREMENT,
     * date, time and thought TEXT NOT NULL)`. There is no `IF NOT EXISTS`, so
     * on an existing table the statement throws and nothing changes.
     */
    method OnCreate() returns (err: Option<SqlError>)
      requires db.Valid()
      modifies db
      ensures db.Valid() && db.tableExists
      ensures old(db.tableExists) ==> err == Some(TableAlreadyExists) && unchanged(db)
      ensures !old(db.tableExists) ==>
        err == None && db.rows == map[] && db.sequence == 0 && db.issued == {}
    {
      if db.tableExists {
        return Some(TableAlreadyExists);
      }
      db.tableExists := true;
      db.rows := map[];
      err := None;
    }

    /**
     * `onUpgrade`: `DROP TABLE IF EXISTS thoughts` whatever the two versions are.
     * Every row and the AUTOINCREMENT counter are lost and no table is created.
     */
    method OnUpgrade(oldVersion: int, newVersion: int)
      requires db.Valid()
      modifies db
      ensures db.Valid()
      ensures !db.tableExists && db.rows == map[] && db.sequence == 0 && db.issued == {}
    {
      db.tableExists := false;
      db.rows := map[];
      db.sequence := 0;
      db.issued := {};
    }
  }
}
