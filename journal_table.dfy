/**
 * The `thoughts` table as a value, and what SQLite's query, insert, update and
 * delete do to it. A selection is an abstract filter over (id, row) rather
 * than SQL text; written values are `ContentValues` keyed by column.
 */
module JournalTable {
  import opened Wrappers
  import opened JournalContract

  /** Rows keyed by their `_id`. */
  type Table = map<nat, Row>

  /** A key that is present with a null value is `Some(None)`; an absent key is not in the map. */
  type ContentValues = map<Column, Option<string>>

  /**
   * A selection: no selection at all (every row), the provider's own
   * `_id = ?` for an item URI, or whatever a caller wrote.
   */
  datatype Filter = AllRows | IdEquals(id: nat) | Where(holds: (nat, Row) -> bool)

  predicate Holds(f: Filter, id: nat, r: Row)
  {
    match f
    case AllRows => true
    case IdEquals(k) => id == k
    case Where(p) => p(id, r)
  }

  /** The ids of the rows a selection matches. */
  function Selected(t: Table, f: Filter): set<nat>
  {
    set id | id in t && Holds(f, id, t[id])
  }

  /** Every key that is present carries a non-null value. */
  predicate NonNull(v: ContentValues)
  {
    forall c :: c in v ==> v[c].Some?
  }

  /** All three NOT NULL columns are present with non-null values. */
  predicate Complete(v: ContentValues)
  {
    forall c: Column :: c in v && v[c].Some?
  }

  /** `Complete`, column by column. */
  lemma CompleteByColumns(v: ContentValues)
    ensures Complete(v) <==>
      Date in v && v[Date].Some? && Time in v && v[Time].Some? && Thought in v && v[Thought].Some?
  {
    if Date in v && v[Date].Some? && Time in v && v[Time].Some? && Thought in v && v[Thought].Some? {
      forall c: Column ensures c in v && v[c].Some? {
        match c
        case Date =>
        case Time =>
        case Thought =>
      }
    }
  }

  /** `NonNull`, column by column. */
  lemma NonNullByColumns(v: ContentValues)
    ensures NonNull(v) <==>
      (Date in v ==> v[Date].Some?) && (Time in v ==> v[Time].Some?) && (Thought in v ==> v[Thought].Some?)
  {
    if (Date in v ==> v[Date].Some?) && (Time in v ==> v[Time].Some?) && (Thought in v ==> v[Thought].Some?) {
      forall c | c in v ensures v[c].Some? {
        match c
        case Date =>
        case Time =>
        case Thought =>
      }
    }
  }

  /** The row a complete set of values describes. */
  function RowOf(v: ContentValues): (r: Row)
    requires Complete(v)
    ensures forall c: Column :: Cell(r, c) == v[c].value
  {
    Row(v[Date].value, v[Time].value, v[Thought].value)
  }

  /** A row after writing the columns present in `v`; the others keep their contents. */
  function Assign(r: Row, v: ContentValues): (r': Row)
    requires NonNull(v)
    ensures forall c: Column :: Cell(r', c) == if c in v then v[c].value else Cell(r, c)
  {
    Row(if Date in v then v[Date].value else r.date,
        if Time in v then v[Time].value else r.time,
        if Thought in v then v[Thought].value else r.thought)
  }

  /** The rows a query returns: exactly the matched rows, unchanged. */
  function Restrict(t: Table, f: Filter): (q: Table)
    ensures q.Keys == Selected(t, f)
    ensures forall id :: id in q ==> q[id] == t[id]
  {
    map id | id in Selected(t, f) :: t[id]
  }

  /** `UPDATE thoughts SET <v> WHERE <f>` with non-null values. */
  function UpdatedTable(t: Table, v: ContentValues, f: Filter): (t': Table)
    requires NonNull(v)
    ensures t'.Keys == t.Keys
    ensures forall id :: id in t && id !in Selected(t, f) ==> t'[id] == t[id]
    ensures forall id :: id in Selected(t, f) ==> t'[id] == Assign(t[id], v)
  {
    map id | id in t :: if id in Selected(t, f) then Assign(t[id], v) else t[id]
  }

  /** `DELETE FROM thoughts WHERE <f>`. */
  function DeletedTable(t: Table, f: Filter): (t': Table)
    ensures t'.Keys == t.Keys - Selected(t, f)
    ensures forall id :: id in t' ==> t'[id] == t[id]
  {
    map id | id in t && id !in Selected(t, f) :: t[id]
  }

  // ---------------------------------------------------------------------------
  // Properties

  /** The provider's `_id = ?` selection matches the one row with that id, if any. */
  lemma IdFilterSelectsOne(t: Table, k: nat)
    ensures Selected(t, IdEquals(k)) == if k in t then {k} else {}
  {
  }

  /** A null selection matches every row. */
  lemma AllRowsSelectsAll(t: Table)
    ensures Selected(t, AllRows) == t.Keys
  {
  }

  /** Delete removes exactly as many rows as the selection matched. */
  lemma DeleteCount(t: Table, f: Filter)
    ensures |DeletedTable(t, f)| == |t| - |Selected(t, f)|
  {
  }

  /** Deleting with a null selection empties the table. */
  lemma DeleteAllEmpties(t: Table)
    ensures DeletedTable(t, AllRows) == map[]
  {
  }

  /**
   * Partial update, cell by cell: a cell changes only if its row is matched and
   * its column is present in the values, and then it holds the new value.
   */
  lemma UpdateCell(t: Table, v: ContentValues, f: Filter, id: nat, c: Column)
    requires NonNull(v) && id in t
    ensures id in UpdatedTable(t, v, f)
    ensures Cell(UpdatedTable(t, v, f)[id], c)
            == if id in Selected(t, f) && c in v then v[c].value else Cell(t[id], c)
  {
  }

  /** Updating with the `_id = k` selection changes no row other than `k`. */
  lemma IdUpdateTouchesOneRow(t: Table, v: ContentValues, k: nat)
    requires NonNull(v)
    ensures forall id :: id in t && id != k ==> UpdatedTable(t, v, IdEquals(k))[id] == t[id]
  {
  }
}
