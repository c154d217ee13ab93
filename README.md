# MyJournal data layer in Dafny

This project models the data-access layer of the MyJournal Android app. That layer has two parts:

- the content provider `MyJournalContentProvider`, which exposes journal entries ("thoughts") under `content://com.oladimeji.myjournal/thoughts`;
- the database helper `MyJournalDbHelper`, which creates and drops the `thoughts` table.

The model has six modules, one per component:

- `Wrappers` holds `Option` and `Result`.
- `JournalContract` holds the authority, the path, the three writable columns, the row type and the two MIME types, with the values from `MyJournalContract.java`.
- `UriRouting` is the URI matcher. It keeps the matcher's registration table (`thoughts` gives code 100, `thoughts/#` gives code 101) and a first-match lookup. `Classify` turns the lookup into `Collection | Item(id) | NoMatch`. This module also defines `ContentUris.withAppendedId`, `parseId` and `Uri.toString`.
- `JournalTable` describes the `thoughts` table as a value of type `map<nat, Row>`. Its functions give what SQLite's query, update and delete do to that value. A caller's selection is an abstract filter: no selection, `_id = k`, or any predicate on (id, row).
- `JournalDbHelper` has two classes:
  - `Database` holds the table state: whether the table exists, its rows, and its AUTOINCREMENT counter. It has the raw `insert`, `update`, `delete` and `query`.
  - `DbHelper` holds the schema version and has `onCreate` and `onUpgrade`.
- `JournalProvider` has the `Provider` class. Its fields are the helper and an append-only log of the URIs passed to `notifyChange`. Its methods are `query`, `insert`, `update` and `delete`. The module also has `getType` and the two validation routines.

The model follows the code as written, including these points where a reader might expect otherwise:

- `update` and `delete` notify on the URI they were called with. For an item URI, that is the item URI, not the collection URI.
- All three checks in `insertThought` report the message "Date is required". Only `updateThought` names each field.
- `onUpgrade` runs `DROP TABLE IF EXISTS` and does not create the table again. After an upgrade, `insert` returns null, because `SQLiteDatabase.insert` catches SQLite's "no such table" error and returns -1. `query`, `update` and `delete` throw "no such table" (`UpgradeScenario`).
- Deleting every row with a null selection does not reset the AUTOINCREMENT counter. So "the first insert yields `thoughts/1`" holds only for a freshly created table (`FirstInsertScenario`), not after the test setup's delete-all (`DeleteAllScenario`).
- The `#` pattern accepts a numeral with leading zeros. `thoughts/007` is item 7 (`ItemUriIsAppendedId`).

## Model

| member | source | states |
|---|---|---|
| `UriRouting.FirstAccepting` | app/src/main/java/com/oladimeji/myjournal/data/MyJournalContentProvider.java:39-57 | the matcher's answer is the first registration that accepts the URI; no earlier registration accepts it |
| `UriRouting.MatchCode` | app/src/main/java/com/oladimeji/myjournal/data/MyJournalContentProvider.java:82 | `match` returns THOUGHTS (100) exactly for authority + `thoughts`, THOUGHTS_ID (101) exactly for authority + `thoughts/<digits>`, and NO_MATCH (-1) otherwise |
| `UriRouting.Classify` | app/src/main/java/com/oladimeji/myjournal/data/MyJournalContentProvider.java:39-57 | Collection iff the URI is exactly authority + `thoughts`; Item iff it is authority + `thoughts/<digits>`, with id the value of those digits; NoMatch iff the matcher returns NO_MATCH; the shapes are exclusive |
| `UriRouting.ShowDecimal` | app/src/main/java/com/oladimeji/myjournal/data/MyJournalContentProvider.java:183 | the id segment appended to a URI is a non-empty all-digit numeral with no leading zero |
| `UriRouting.ParseShowDecimal` | app/src/main/java/com/oladimeji/myjournal/data/MyJournalContentProvider.java:102 | `parseId` of the segment `withAppendedId` writes gives back the id |
| `UriRouting.ShowParseDecimal` | app/src/main/java/com/oladimeji/myjournal/data/MyJournalContentProvider.java:102 | for a numeral without leading zeros, writing back the id `parseId` reads from it gives the same numeral, so `parseId` and `String.valueOf` are inverse on canonical numerals |
| `UriRouting.ShowDecimalInjective` | app/src/main/java/com/oladimeji/myjournal/data/MyJournalContentProvider.java:183 | distinct ids are written as distinct numerals |
| `UriRouting.AppendId` | app/src/main/java/com/oladimeji/myjournal/data/MyJournalContentProvider.java:183 | `withAppendedId` keeps the authority and every segment and adds one last all-digit segment whose `parseId` value is the id |
| `UriRouting.ContentUriIsCollection` | app/src/main/java/com/oladimeji/myjournal/data/MyJournalContentProvider.java:50 | the content URI routes to the collection |
| `UriRouting.ClassifyAppendedId` | app/src/main/java/com/oladimeji/myjournal/data/MyJournalContentProvider.java:183 | appending an id to a collection URI gives a URI that routes to Item of that same id |
| `UriRouting.AppendIdInjective` | app/src/main/java/com/oladimeji/myjournal/data/MyJournalContentProvider.java:183 | distinct ids give distinct item URIs |
| `UriRouting.ItemUriIsAppendedId` | app/src/main/java/com/oladimeji/myjournal/data/MyJournalContentProvider.java:55-57 | every item URI routes like the content URI with its id appended, and equals it when the numeral is canonical |
| `JournalTable.RowOf` | app/src/main/java/com/oladimeji/myjournal/data/MyJournalContentProvider.java:173 | an inserted row holds in each column the value given for it |
| `JournalTable.Assign` | app/src/main/java/com/oladimeji/myjournal/data/MyJournalContentProvider.java:279 | an updated row takes each column present in the values and keeps every other column |
| `JournalTable.Restrict` | app/src/main/java/com/oladimeji/myjournal/data/MyJournalContentProvider.java:88 | a query returns exactly the rows the selection matches, unchanged |
| `JournalTable.UpdatedTable` | app/src/main/java/com/oladimeji/myjournal/data/MyJournalContentProvider.java:279 | update keeps the set of ids, leaves unmatched rows untouched and rewrites each matched row by `Assign` |
| `JournalTable.DeletedTable` | app/src/main/java/com/oladimeji/myjournal/data/MyJournalContentProvider.java:198 | delete removes exactly the matched rows and keeps the others unchanged |
| `JournalTable.IdFilterSelectsOne` | app/src/main/java/com/oladimeji/myjournal/data/MyJournalContentProvider.java:101-102 | the `_id = ?` selection matches the row with that id if it exists and nothing else |
| `JournalTable.AllRowsSelectsAll` | app/src/androidTest/java/com/oladimeji/myjournal/data/TestMyJournalContentProvider.java:40 | a null selection matches every row |
| `JournalTable.DeleteCount` | app/src/main/java/com/oladimeji/myjournal/data/MyJournalContentProvider.java:187-218 | delete shrinks the table by exactly the count it returns |
| `JournalTable.DeleteAllEmpties` | app/src/androidTest/java/com/oladimeji/myjournal/data/TestMyJournalContentProvider.java:36-41 | deleting with a null selection leaves the table empty |
| `JournalTable.UpdateCell` | app/src/main/java/com/oladimeji/myjournal/data/MyJournalContentProvider.java:245-289 | partial update: a cell changes only when its row is matched and its column is present, and then it holds the new value |
| `JournalTable.IdUpdateTouchesOneRow` | app/src/main/java/com/oladimeji/myjournal/data/MyJournalContentProvider.java:231-233 | an update under `_id = k` leaves every other row unchanged |
| `JournalDbHelper.Database.constructor` | app/src/main/java/com/oladimeji/myjournal/data/MyJournalDbHelper.java:30-32 | a new database file has no `thoughts` table |
| `JournalDbHelper.Database.Insert` | app/src/main/java/com/oladimeji/myjournal/data/MyJournalContentProvider.java:173-177 | returns -1 with no change iff the table is missing, a NOT NULL column is absent or null, or storage fails; otherwise adds one row under an id above every id ever assigned and never used before |
| `JournalDbHelper.Database.Update` | app/src/main/java/com/oladimeji/myjournal/data/MyJournalContentProvider.java:279 | returns the number of matched rows and rewrites them; empty values, a missing table, or a null written to a matched row throw and change nothing; a null that no row receives returns 0 |
| `JournalDbHelper.Database.Delete` | app/src/main/java/com/oladimeji/myjournal/data/MyJournalContentProvider.java:196-205 | removes the matched rows and returns their number; on a missing table it throws and changes nothing |
| `JournalDbHelper.Database.Query` | app/src/main/java/com/oladimeji/myjournal/data/MyJournalContentProvider.java:88-106 | succeeds exactly when the table exists, with the matched rows; otherwise "no such table" |
| `JournalDbHelper.DbHelper.constructor` | app/src/main/java/com/oladimeji/myjournal/data/MyJournalDbHelper.java:23-32 | the helper is built with schema version 1 |
| `JournalDbHelper.DbHelper.OnCreate` | app/src/main/java/com/oladimeji/myjournal/data/MyJournalDbHelper.java:38-49 | creates an empty `thoughts` table whose id counter starts from zero; on an existing table the statement throws and nothing changes |
| `JournalDbHelper.DbHelper.OnUpgrade` | app/src/main/java/com/oladimeji/myjournal/data/MyJournalDbHelper.java:53-56 | whatever the versions, the table is dropped with all its rows and its counter, and is not recreated |
| `JournalProvider.GetType` | app/src/main/java/com/oladimeji/myjournal/data/MyJournalContentProvider.java:122-133 | the list type iff the URI is the collection, the item type iff it is an item, IllegalStateException "Unknown URI … with match -1" iff the matcher finds nothing |
| `JournalProvider.EffectiveFilter` | app/src/main/java/com/oladimeji/myjournal/data/MyJournalContentProvider.java:101-102 | on THOUGHTS_ID the selection becomes `_id = <parseId(uri)>` and a row matches iff its id is that id, whatever the caller passed; on THOUGHTS the caller's selection decides; the same replacement is made by `delete` (lines 202-203) and `update` (lines 231-232) |
| `JournalProvider.ItemSelectionOverride` | app/src/main/java/com/oladimeji/myjournal/data/MyJournalContentProvider.java:101-106 | on an item URI, whatever the caller's selection, only the row with the URI's id can be matched |
| `JournalProvider.CollectionSelectionPassThrough` | app/src/main/java/com/oladimeji/myjournal/data/MyJournalContentProvider.java:84-88 | on the collection the caller's selection is used unchanged |
| `JournalProvider.InsertCheck` | app/src/main/java/com/oladimeji/myjournal/data/MyJournalContentProvider.java:152-167 | passes iff date, time and thought are all present and non-null; any failure carries "Date is required" |
| `JournalProvider.UpdateCheck` | app/src/main/java/com/oladimeji/myjournal/data/MyJournalContentProvider.java:245-270 | passes iff no present key is null; the first null key, in the order date, time, thought, gives the message "Date is required", "Time is required" or "Kindly enter your thoughts" |
| `JournalProvider.Provider.constructor` | app/src/main/java/com/oladimeji/myjournal/data/MyJournalContentProvider.java:67-71 | the provider holds the helper and has notified nothing |
| `JournalProvider.Provider.Query` | app/src/main/java/com/oladimeji/myjournal/data/MyJournalContentProvider.java:74-119 | unmatched URI throws "cannot query unknown UI …"; the collection returns exactly the rows of the caller's selection; an item returns at most its own row; the cursor's notification URI is exactly the URI given |
| `JournalProvider.Provider.Insert` | app/src/main/java/com/oladimeji/myjournal/data/MyJournalContentProvider.java:136-184 | a non-collection URI and an incomplete value set throw with no change and no notification; a storage -1 gives null with no change; otherwise one row under a fresh, larger id, one notification on the URI given, and that URI with the id appended, which routes to Item(id) |
| `JournalProvider.Provider.Delete` | app/src/main/java/com/oladimeji/myjournal/data/MyJournalContentProvider.java:186-218 | an unmatched URI throws; otherwise removes exactly the rows of the effective selection, returns their count (0 or 1 on an item URI), and logs the URI given iff the count is non-zero |
| `JournalProvider.Provider.Update` | app/src/main/java/com/oladimeji/myjournal/data/MyJournalContentProvider.java:220-289 | routing, then the null checks, then empty values return 0 untouched; otherwise a partial update of the rows of the effective selection, returns their count (0 or 1 on an item URI), and logs the URI given iff the count is non-zero |
| `JournalProvider.NewProvider` | app/src/main/java/com/oladimeji/myjournal/data/MyJournalDbHelper.java:38-49 | after `onCreate` the provider sees an empty table, a zero counter and an empty log |
| `JournalProvider.FirstInsertScenario` | app/src/androidTest/java/com/oladimeji/myjournal/data/TestMyJournalContentProvider.java:104-146 | the first insert into a fresh table returns `thoughts/1`, notifies the collection once, and the collection query lists that one row |
| `JournalProvider.ItemDeleteScenario` | app/src/androidTest/java/com/oladimeji/myjournal/data/TestMyJournalContentProvider.java:258-269 | deleting `thoughts/1` under a selection that matches nothing still deletes that row and notifies `thoughts/1`; an insert without a thought is rejected with "Date is required" and notifies nothing |
| `JournalProvider.DeleteAllScenario` | app/src/androidTest/java/com/oladimeji/myjournal/data/TestMyJournalContentProvider.java:36-41 | a delete-all with a null selection removes the row but not the counter, so the next insert is `thoughts/2` |
| `JournalProvider.UpgradeScenario` | app/src/main/java/com/oladimeji/myjournal/data/MyJournalDbHelper.java:53-56 | after an upgrade, insert returns null and query, update and delete throw "no such table" |

## Left out

- Lazy opening of the database (`getReadableDatabase` and `getWritableDatabase`), and SQLiteOpenHelper's choice between `onCreate` and `onUpgrade`. The model calls `OnCreate` and `OnUpgrade` directly, and the provider receives its helper already built.
- Disk and I/O errors other than the insert's -1. The -1 outcome is the `storageFails` flag of `Insert`.
- SQL text. Selections are abstract filters, so selection-argument binding is not modelled. A filter always evaluates, so a caller selection that SQLite rejects (an unknown column, the wrong number of `?` arguments) never arises: in the source such a selection makes query, update and delete on the collection URI throw SQLiteException, while on an item URI it is discarded (MyJournalContentProvider.java lines 101-102, 202-203 and 231-232). Projections, sort order and Cursor objects are also left out: a query returns the matched rows as a map.
- Keys other than date, time and thought in `ContentValues` (for example `_id`), and values that are not strings. `ContentValues` is keyed by a three-value `Column` type, so these cannot be written.
- The URI's scheme, query and fragment, a trailing slash, percent-encoding and empty path segments. The matcher ignores the first three; `getPathSegments` decodes escapes and drops empty segments, so `content://com.oladimeji.myjournal//thoughts` routes to THOUGHTS, and a `Uri` in the model holds only decoded, non-empty segments. `UriText` always writes `content://<authority>/<segments>`, so the exception messages built from it (`QueryUnknownMessage`, `TypeUnknownMessage`, `InsertUnsupportedMessage`, `DeleteUnsupportedMessage`, `UpdateUnsupportedMessage`) lose any other scheme, query, fragment, trailing slash, percent-escape or doubled slash that `uri.toString()` would print at MyJournalContentProvider.java lines 110, 131, 143, 207 and 235.
- A null `ContentValues`. `insertThought` (line 154, `values.getAsString`) and `updateThought` (line 248, `values.containsKey`) throw NullPointerException on it; in the model `values` is always a map, so this outcome does not arise.
- `ContentUris.parseId` overflow on numerals longer than a `long`, and SQLite's largest id (SQLITE_FULL). Ids are unbounded naturals.
- Delivery of change notifications to observers, including descendant matching. The model keeps only the log of URIs passed to `notifyChange`.
- Concurrency and threads.
- The activities, the adapter, the date and time pickers and sign-in. These are UI.
