/**
 * The journal's content provider: routes a URI, validates the values, runs the
 * statement on the helper's database and, when a write took effect, appends a
 * change notification to the resolver's log.
 */
module JournalProvider {
  import opened Wrappers
  import opened JournalContract
  import opened UriRouting
  import opened JournalTable
  import opened JournalDbHelper

  /** What a provider call throws. */
  datatype ProviderError =
    | IllegalArgument(message: string)
    | IllegalState(message: string)
    | Sql(error: SqlError)

  /** A query result: its rows and the URI it is registered to be notified on. */
  datatype Cursor = Cursor(rows: Table, notificationUri: Uri)

  const DateRequired: string := "Date is required"
  const TimeRequired: string := "Time is required"
  const ThoughtRequired: string := "Kindly enter your thoughts"

  function QueryUnknownMessage(u: Uri): string { "cannot query unknown UI " + UriText(u) }
  function TypeUnknownMessage(u: Uri): string { "Unknown URI " + UriText(u) + " with match -1" }
  function InsertUnsupportedMessage(u: Uri): string { "Insertion is not supported for " + UriText(u) }
  function DeleteUnsupportedMessage(u: Uri): string { "Deletion is not supported for " + UriText(u) }
  function UpdateUnsupportedMessage(u: Uri): string { "Update is not supported for " + UriText(u) }

  /** `getType`: the list type for the collection, the item type for an item, and IllegalStateException otherwise. */
  function GetType(u: Uri): (r: Result<string, ProviderError>)
    ensures r == Success(ContentListType) <==> IsCollectionUri(u)
    ensures r == Success(ContentItemType) <==> IsItemUri(u)
    ensures r.Failure? <==> MatchCode(u) == NoMatchCode
    ensures r.Failure? ==> r.error == IllegalState(TypeUnknownMessage(u))
  {
    assert |ContentListType| != |ContentItemType|;
    match Classify(u)
    case Collection => Success(ContentListType)
    case Item(_) => Success(ContentItemType)
    case NoMatch => Failure(IllegalState(TypeUnknownMessage(u)))
  }

  /**
   * The selection a statement runs with: on an item URI the caller's selection
   * is replaced by `_id = <id>`; on the collection it is passed through.
   */
  function EffectiveFilter(m: Match, selection: Filter): (f: Filter)
    ensures forall id, r :: Holds(f, id, r) <==> if m.Item? then id == m.id else Holds(selection, id, r)
  {
    match m
    case Item(id) => IdEquals(id)
    case _ => selection
  }

  /** On an item URI the caller's selection plays no part: only the row with the URI's id can be matched. */
  lemma ItemSelectionOverride(t: Table, id: nat, selection: Filter)
    ensures Selected(t, EffectiveFilter(Item(id), selection)) == if id in t then {id} else {}
  {
  }

  /** On the collection the caller's selection is used as it is. */
  lemma CollectionSelectionPassThrough(t: Table, selection: Filter)
    ensures Selected(t, EffectiveFilter(Collection, selection)) == Selected(t, selection)
  {
  }

  /**
   * `insertThought`'s three checks, in order. Each of them reports the same
   * message, "Date is required".
   */
  function InsertCheck(values: ContentValues): (err: Option<string>)
    ensures err.None? <==> Complete(values)
    ensures err.Some? ==> err.value == DateRequired
  {
    if Date !in values || values[Date].None? then Some(DateRequired)
    else if Time !in values || values[Time].None? then Some(DateRequired)
    else if Thought !in values || values[Thought].None? then Some(DateRequired)
    else
      CompleteByColumns(values);
      None
  }

  /** `updateThought`'s three checks: a key that is present must not be null. */
  function UpdateCheck(values: ContentValues): (err: Option<string>)
    ensures err.None? <==> NonNull(values)
    ensures err == Some(DateRequired) <==> Date in values && values[Date].None?
    ensures err == Some(TimeRequired) <==>
      !(Date in values && values[Date].None?) && Time in values && values[Time].None?
    ensures err == Some(ThoughtRequired) <==>
      !(Date in values && values[Date].None?) && !(Time in values && values[Time].None?)
      && Thought in values && values[Thought].None?
  {
    if Date in values && values[Date].None? then Some(DateRequired)
    else if Time in values && values[Time].None? then Some(TimeRequired)
    else if Thought in values && values[Thought].None? then Some(ThoughtRequired)
    else
      NonNullByColumns(values);
      None
  }

  class Provider {
    /** `mdbHelper`, set when the provider is created. */
    const helper: DbHelper
    /** The URIs passed to `notifyChange`, oldest first. */
    var notifications: seq<Uri>

    ghost predicate Valid()
      reads this, helper, helper.db
    {
      helper.db.Valid()
    }

    constructor (helper: DbHelper)
      requires helper.db.Valid()
      ensures Valid() && this.helper == helper && notifications == []
    {
      this.helper := helper;
      notifications := [];
    }

    /**
     * `query`: the rows the effective selection matches, tagged with exactly
     * the URI it was given.
     */
    function Query(u: Uri, selection: Filter): (r: Result<Cursor, ProviderError>)
      reads helper, helper.db
      ensures Classify(u) == NoMatch ==> r == Failure(IllegalArgument(QueryUnknownMessage(u)))
      ensures Classify(u) != NoMatch && !helper.db.tableExists ==> r == Failure(Sql(NoSuchTable))
      ensures r.Success? ==> r.value.notificationUri == u
      ensures Classify(u) == Collection && helper.db.tableExists ==>
        r == Success(Cursor(Restrict(helper.db.rows, selection), u))
      ensures Classify(u).Item? && helper.db.tableExists ==>
        var id := Classify(u).id;
        r.Success? && r.value.rows == if id in helper.db.rows then map[id := helper.db.rows[id]] else map[]
    {
      var m := Classify(u);
      if m == NoMatch then Failure(IllegalArgument(QueryUnknownMessage(u)))
      else
        match helper.db.Query(EffectiveFilter(m, selection))
        case Failure(e) => Failure(Sql(e))
        case Success(rows) =>
          if m.Item? then ItemSelectionOverride(helper.db.rows, m.id, selection); Success(Cursor(rows, u))
          else Success(Cursor(rows, u))
    }

    /**
     * `insert` and `insertThought`. Only the collection accepts an insert. A
     * storage answer of -1 is returned as `Success(None)`, Java's null.
     */
    method Insert(u: Uri, values: ContentValues, storageFails: bool) returns (r: Result<Option<Uri>, ProviderError>)
      requires Valid()
      modifies this, helper.db
      ensures Valid()
      ensures Classify(u) != Collection ==> r == Failure(IllegalArgument(InsertUnsupportedMessage(u)))
      ensures Classify(u) == Collection && !Complete(values) ==> r == Failure(IllegalArgument(DateRequired))
      ensures Classify(u) == Collection && Complete(values) ==>
        r.Success? && (r.value.None? <==> !old(helper.db.tableExists) || storageFails)
      ensures r.Failure? || r == Success(None) ==>
        unchanged(helper.db) && notifications == old(notifications)
      ensures r.Success? && r.value.Some? ==>
        var id := old(helper.db.sequence) + 1;
        && r.value.value == AppendId(u, id)
        && Classify(r.value.value) == Item(id)
        && id !in old(helper.db.issued)
        && (forall a :: a in old(helper.db.issued) ==> a < id)
        && helper.db.rows == old(helper.db.rows)[id := RowOf(values)]
        && helper.db.tableExists && helper.db.sequence == id
        && helper.db.issued == old(helper.db.issued) + {id}
        && notifications == old(notifications) + [u]
    {
      if Classify(u) != Collection {
        return Failure(IllegalArgument(InsertUnsupportedMessage(u)));
      }
      var err := InsertCheck(values);
      if err.Some? {
        return Failure(IllegalArgument(err.value));
      }
      var id := helper.db.Insert(values, storageFails);
      if id == -1 {
        return Success(None);
      }
      notifications := notifications + [u];
      ClassifyAppendedId(u, id);
      r := Success(Some(AppendId(u, id)));
    }

    /** `delete`: removes the rows the effective selection matches and notifies `u` if there were any. */
    method Delete(u: Uri, selection: Filter) returns (r: Result<nat, ProviderError>)
      requires Valid()
      modifies this, helper.db
      ensures Valid()
      ensures Classify(u) == NoMatch ==> r == Failure(IllegalArgument(DeleteUnsupportedMessage(u)))
      ensures Classify(u) != NoMatch ==> (r.Success? <==> old(helper.db.tableExists))
      ensures Classify(u) != NoMatch && !old(helper.db.tableExists) ==> r == Failure(Sql(NoSuchTable))
      ensures r.Failure? ==> unchanged(helper.db) && notifications == old(notifications)
      ensures helper.db.tableExists == old(helper.db.tableExists)
      ensures helper.db.sequence == old(helper.db.sequence) && helper.db.issued == old(helper.db.issued)
      ensures r.Success? ==>
        var f := EffectiveFilter(Classify(u), selection);
        && r.value == |Selected(old(helper.db.rows), f)|
        && helper.db.rows == DeletedTable(old(helper.db.rows), f)
        && |helper.db.rows| == |old(helper.db.rows)| - r.value
        && notifications == old(notifications) + (if r.value != 0 then [u] else [])
      ensures r.Success? && Classify(u).Item? ==>
        r.value == if Classify(u).id in old(helper.db.rows) then 1 else 0
    {
      var m := Classify(u);
      if m == NoMatch {
        return Failure(IllegalArgument(DeleteUnsupportedMessage(u)));
      }
      var f := EffectiveFilter(m, selection);
      if m.Item? {
        ItemSelectionOverride(helper.db.rows, m.id, selection);
      }
      DeleteCount(helper.db.rows, f);
      var deleted := helper.db.Delete(f);
      if deleted.Failure? {
        return Failure(Sql(deleted.error));
      }
      if deleted.value != 0 {
        notifications := notifications + [u];
      }
      r := Success(deleted.value);
    }

    /**
     * `update` and `updateThought`: routing first, then the null checks, then
     * the empty-values shortcut, then the statement; `u` is notified if any
     * row was matched.
     */
    method Update(u: Uri, values: ContentValues, selection: Filter) returns (r: Result<nat, ProviderError>)
      requires Valid()
      modifies this, helper.db
      ensures Valid()
      ensures Classify(u) == NoMatch ==> r == Failure(IllegalArgument(UpdateUnsupportedMessage(u)))
      ensures Classify(u) != NoMatch && !NonNull(values) ==>
        r == Failure(IllegalArgument(UpdateCheck(values).value))
      ensures Classify(u) != NoMatch && NonNull(values) && |values| == 0 ==> r == Success(0)
      ensures Classify(u) != NoMatch && NonNull(values) && |values| > 0 ==>
        (r.Success? <==> old(helper.db.tableExists))
      ensures Classify(u) != NoMatch && NonNull(values) && |values| > 0 && !old(helper.db.tableExists) ==>
        r == Failure(Sql(NoSuchTable))
      ensures r.Failure? || |values| == 0 ==> unchanged(helper.db) && notifications == old(notifications)
      ensures helper.db.tableExists == old(helper.db.tableExists)
      ensures helper.db.sequence == old(helper.db.sequence) && helper.db.issued == old(helper.db.issued)
      ensures r.Success? && |values| > 0 ==>
        var f := EffectiveFilter(Classify(u), selection);
        && r.value == |Selected(old(helper.db.rows), f)|
        && helper.db.rows == UpdatedTable(old(helper.db.rows), values, f)
        && notifications == old(notifications) + (if r.value != 0 then [u] else [])
      ensures r.Success? && Classify(u).Item? ==>
        r.value == if Classify(u).id in old(helper.db.rows) && |values| > 0 then 1 else 0
    {
      var m := Classify(u);
      if m == NoMatch {
        return Failure(IllegalArgument(UpdateUnsupportedMessage(u)));
      }
      var f := EffectiveFilter(m, selection);
      var err := UpdateCheck(values);
      if err.Some? {
        return Failure(IllegalArgument(err.value));
      }
      if |values| == 0 {
        return Success(0);
      }
      if m.Item? {
        ItemSelectionOverride(helper.db.rows, m.id, selection);
      }
      var updated := helper.db.Update(values, f);
      if updated.Failure? {
        return Failure(Sql(updated.error));
      }
      if updated.value != 0 {
        notifications := notifications + [u];
      }
      r := Success(updated.value);
    }
  }

  // ---------------------------------------------------------------------------
  // Scenarios on a new database

  const SampleEntry: ContentValues :=
    map[Date := Some("6/28/2018"), Time := Some("12:20"), Thought := Some("My thinking")]

  /** A provider over a new database on which `onCreate` has run: an empty table and an empty log. */
  method NewProvider() returns (provider: Provider)
    ensures fresh(provider) && fresh(provider.helper) && fresh(provider.helper.db)
    ensures provider.Valid() && provider.notifications == []
    ensures provider.helper.db.tableExists && provider.helper.db.rows == map[]
    ensures provider.helper.db.sequence == 0 && provider.helper.db.issued == {}
  {
    var db := new Database();
    var helper := new DbHelper(db);
    var _ := helper.OnCreate();
    provider := new Provider(helper);
  }

  /**
   * On a freshly created table the first insert yields `thoughts/1`, notifies
   * the collection once, and the collection query lists exactly that row.
   */
  method FirstInsertScenario() returns (inserted: Result<Option<Uri>, ProviderError>, listed: Result<Cursor, ProviderError>,
                                   log: seq<Uri>)
    ensures inserted == Success(Some(AppendId(ContentUri, 1)))
    ensures listed == Success(Cursor(map[1 := Row("6/28/2018", "12:20", "My thinking")], ContentUri))
    ensures log == [ContentUri]
  {
    var provider := NewProvider();
    var db := provider.helper.db;
    CompleteByColumns(SampleEntry);
    ContentUriIsCollection();
    inserted := provider.Insert(ContentUri, SampleEntry, false);
    assert db.rows == map[1 := Row("6/28/2018", "12:20", "My thinking")];
    AllRowsSelectsAll(db.rows);
    assert Restrict(db.rows, AllRows) == db.rows;
    listed := provider.Query(ContentUri, AllRows);
    log := provider.notifications;
  }

  /**
   * Deleting `thoughts/1` with a caller selection that matches nothing still
   * deletes row 1, and notifies the item URI rather than the collection; an
   * insert without a thought is then rejected with "Date is required" and
   * notifies nothing.
   */
  method ItemDeleteScenario() returns (deleted: Result<nat, ProviderError>, emptied: Result<Cursor, ProviderError>,
                                  rejected: Result<Option<Uri>, ProviderError>, log: seq<Uri>)
    ensures deleted == Success(1)
    ensures emptied == Success(Cursor(map[], ContentUri))
    ensures rejected == Failure(IllegalArgument(DateRequired))
    ensures log == [ContentUri, AppendId(ContentUri, 1)]
  {
    var provider := NewProvider();
    var db := provider.helper.db;
    CompleteByColumns(SampleEntry);
    ContentUriIsCollection();
    var inserted := provider.Insert(ContentUri, SampleEntry, false);
    assert db.rows.Keys == {1};
    ClassifyAppendedId(ContentUri, 1);
    deleted := provider.Delete(AppendId(ContentUri, 1), Where((id: nat, r: Row) => false));
    assert db.rows.Keys == {};
    emptied := provider.Query(ContentUri, AllRows);
    var noThought := map[Date := Some("6/28/2018"), Time := Some("12:20")];
    CompleteByColumns(noThought);
    rejected := provider.Insert(ContentUri, noThought, false);
    log := provider.notifications;
  }

  /**
   * Deleting every row with a null selection empties the table but keeps the
   * AUTOINCREMENT counter, so the next insert is `thoughts/2`, not `thoughts/1`.
   */
  method DeleteAllScenario() returns (emptied: Result<nat, SqlError>, next: Result<Option<Uri>, ProviderError>)
    ensures emptied == Success(1)
    ensures next == Success(Some(AppendId(ContentUri, 2)))
  {
    var provider := NewProvider();
    var db := provider.helper.db;
    CompleteByColumns(SampleEntry);
    ContentUriIsCollection();
    var first := provider.Insert(ContentUri, SampleEntry, false);
    AllRowsSelectsAll(db.rows);
    assert db.rows.Keys == {1};
    emptied := db.Delete(AllRows);
    DeleteAllEmpties(map[1 := RowOf(SampleEntry)]);
    next := provider.Insert(ContentUri, SampleEntry, false);
  }

  /**
   * After `onUpgrade` the table is gone: insert answers null, and query,
   * update and delete throw "no such table".
   */
  method UpgradeScenario() returns (inserted: Result<Option<Uri>, ProviderError>, listed: Result<Cursor, ProviderError>,
                               updated: Result<nat, ProviderError>, deleted: Result<nat, ProviderError>)
    ensures inserted == Success(None)
    ensures listed == Failure(Sql(NoSuchTable))
    ensures updated == Failure(Sql(NoSuchTable))
    ensures deleted == Failure(Sql(NoSuchTable))
  {
    var provider := NewProvider();
    var db := provider.helper.db;
    CompleteByColumns(SampleEntry);
    ContentUriIsCollection();
    var before := provider.Insert(ContentUri, SampleEntry, false);
    provider.helper.OnUpgrade(DatabaseVersion, DatabaseVersion + 1);
    inserted := provider.Insert(ContentUri, SampleEntry, false);
    listed := provider.Query(ContentUri, AllRows);
    NonNullByColumns(map[Thought := Some("Later")]);
    updated := provider.Update(AppendId(ContentUri, 1), map[Thought := Some("Later")], AllRows);
    deleted := provider.Delete(ContentUri, AllRows);
  }
}
