/**
 * The stable names of the journal's data layer: the content authority, the
 * `thoughts` path, the table and its columns, and the two MIME types.
 */
module JournalContract {

  const Authority: string := "com.oladimeji.myjournal"
  const PathThoughts: string := "thoughts"

  /** Android's base MIME types for a directory and for a single item of a cursor. */
  const CursorDirBaseType: string := "vnd.android.cursor.dir"
  const CursorItemBaseType: string := "vnd.android.cursor.item"

  const ContentListType: string := CursorDirBaseType + "/" + Authority + "/" + PathThoughts
  const ContentItemType: string := CursorItemBaseType + "/" + Authority + "/" + PathThoughts

  /** The three text columns a caller can write (`date`, `time`, `thought`); `_id` is assigned by storage. */
  datatype Column = Date | Time | Thought

  /** A stored journal entry; every column is NOT NULL, so each is a plain string. */
  datatype Row = Row(date: string, time: string, thought: string)

  function Cell(r: Row, c: Column): string
  {
    match c
    case Date => r.date
    case Time => r.time
    case Thought => r.thought
  }
}
