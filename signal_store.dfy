/** The "already notified" store: the `date` column of `last_signal_date.csv`,
    read by `is_new_signal` and extended by `update_last_signal_date`. */
module SignalStore {

  /** One cell of the `date` column as pandas reads it back: blank (NaN) or a date string. */
  datatype Cell = Blank | Text(s: string)

  /** What the store file holds, as far as the two functions can tell. */
  datatype StoreFile =
    | Absent                         // no file, or a file of size 0
    | NoDateColumn(rows: nat)        // a table without a `date` column
    | DateTable(column: seq<Cell>)   // a table whose `date` column reads back as `column`

  /** The `date` cell of every row, blank for a row that has none. */
  function DateCells(file: StoreFile): seq<Cell>
  {
    match file
    case Absent => []
    case NoDateColumn(rows) => seq(rows, _ => Blank)
    case DateTable(column) => column
  }

  /** `is_new_signal`: true for a missing or empty file and for a table
      without a `date` column; otherwise true iff the date is not stored. */
  function IsNewSignal(file: StoreFile, signalDate: string): (isNew: bool)
    ensures !file.DateTable? ==> isNew
    ensures isNew <==> Text(signalDate) !in DateCells(file)
  {
    match file
    case Absent => true
    case NoDateColumn(_) => true
    case DateTable(column) => Text(signalDate) !in column
  }

  /** The file `update_last_signal_date` writes back: a `date` table with
      the earlier rows, in order, and one new row at the end. */
  function Appended(file: StoreFile, signalDate: string): (updated: StoreFile)
    ensures updated.DateTable?
    ensures |DateCells(updated)| == |DateCells(file)| + 1
    ensures DateCells(updated)[..|DateCells(file)|] == DateCells(file)
    ensures DateCells(updated)[|DateCells(file)|] == Text(signalDate)
  {
    var rows := DateCells(file);
    DateTable(rows + [Text(signalDate)])
  }

  /** Once a date is appended it is no longer new, and every other date is
      exactly as new as it was before. */
  lemma AppendedNovelty(file: StoreFile, signalDate: string, other: string)
    ensures !IsNewSignal(Appended(file, signalDate), signalDate)
    ensures other != signalDate ==>
      IsNewSignal(Appended(file, signalDate), other) == IsNewSignal(file, other)
  {
    var before := DateCells(file);
    assert DateCells(Appended(file, signalDate)) == before + [Text(signalDate)];
  }

  /** The store as the program sees it across calls: the file's contents. */
  class DateStore {
    var file: StoreFile

    constructor (file: StoreFile)
      ensures this.file == file
    {
      this.file := file;
    }

    /** `update_last_signal_date`: read the table (an empty one if the file is
        missing or empty), append a row and write it back. */
    method UpdateLastSignalDate(signalDate: string)
      modifies this
      ensures file == Appended(old(file), signalDate)
      ensures !IsNewSignal(file, signalDate)
      ensures forall other :: other != signalDate ==>
        IsNewSignal(file, other) == IsNewSignal(old(file), other)
    {
      var rows := DateCells(file);
      ghost var before := file;
      file := DateTable(rows + [Text(signalDate)]);
      forall other | other != signalDate
        ensures IsNewSignal(file, other) == IsNewSignal(before, other)
      {
        AppendedNovelty(before, signalDate, other);
      }
      AppendedNovelty(before, signalDate, signalDate);
    }
  }
}
