/**
 * The reminder editor's table: three sections (title, due date, notes),
 * how many rows each has, which cell each row uses, the section headers,
 * and the edit callbacks that replace one field of the reminder being edited.
 */
module ReminderDetailEdit {
  import opened ReminderModel

  /** A table position. */
  datatype IndexPath = IndexPath(section: int, row: int)

  datatype ReminderSection = Title | DueDate | Notes {

    /** The section's integer raw value, which is also its table section number. */
    function RawValue(): (n: int)
      ensures 0 <= n < 3
    {
      match this
      case Title => 0
      case DueDate => 1
      case Notes => 2
    }

    /** The section's header text. */
    function DisplayText(): (text: string)
      ensures text in {"Title", "Date", "Notes"}
    {
      match this
      case Title => "Title"
      case DueDate => "Date"
      case Notes => "Notes"
    }

    /** The number of rows: the due-date section has a label row and a picker row. */
    function NumberRows(): (n: int)
      ensures n == if this == DueDate then 2 else 1
    {
      match this
      case Title => 1
      case Notes => 1
      case DueDate => 2
    }

    /** The reuse identifier of the cell in row `row` of this section. */
    function CellIdentifier(row: int): (id: string)
      ensures this == Title ==> id == "EditTitleCell"
      ensures this == Notes ==> id == "EditNotesCell"
      ensures this == DueDate ==> id == if row == 0 then "EditDateLabelCell" else "EditDateCell"
    {
      match this
      case Title => "EditTitleCell"
      case DueDate => if row == 0 then "EditDateLabelCell" else "EditDateCell"
      case Notes => "EditNotesCell"
    }
  }

  /** The failable initialiser from a section number. */
  function FromRawValue(n: int): (s: Option<ReminderSection>)
    ensures s.Some? <==> 0 <= n < 3
    ensures s.Some? ==> s.value.RawValue() == n
  {
    if n == 0 then Some(Title)
    else if n == 1 then Some(DueDate)
    else if n == 2 then Some(Notes)
    else None
  }

  /** Every section, in declaration order. */
  function AllCases(): (cases: seq<ReminderSection>)
    ensures |cases| == 3
    ensures forall s: ReminderSection :: s.RawValue() < |cases| && cases[s.RawValue()] == s
  {
    [Title, DueDate, Notes]
  }

  /** Raw values are 0, 1, 2 in declaration order, and they round-trip. */
  lemma RawValueRoundTrip(s: ReminderSection)
    ensures FromRawValue(s.RawValue()) == Some(s)
    ensures Title.RawValue() == 0 && DueDate.RawValue() == 1 && Notes.RawValue() == 2
  {
  }

  /** The identifier the date-label cell is registered under. */
  function DateLabelCellIdentifier(): (id: string)
    ensures id == "EditDateLabelCell"
    ensures forall s: ReminderSection, row: int :: s.CellIdentifier(row) == id <==> s == DueDate && row == 0
  {
    DueDate.CellIdentifier(0)
  }

  /** Rows of different kinds use different cells, so each row gets the right editor. */
  lemma CellIdentifiersDistinguishRows(s: ReminderSection, t: ReminderSection, row: int, col: int)
    ensures s.CellIdentifier(row) == t.CellIdentifier(col)
            <==> s == t && (s == DueDate ==> (row == 0 <==> col == 0))
  {
  }

  /** The table has one section per case of ReminderSection. */
  function NumberOfSections(): (n: int)
    ensures n == 3
    ensures forall k :: FromRawValue(k).Some? <==> 0 <= k < n
  {
    |AllCases()|
  }

  /** Rows in a section; zero for a section number outside the enum. */
  function NumberOfRowsInSection(section: int): (n: int)
    ensures 0 <= section < NumberOfSections() ==> n == FromRawValue(section).value.NumberRows()
    ensures !(0 <= section < NumberOfSections()) ==> n == 0
    ensures n == if section == 1 then 2 else if section == 0 || section == 2 then 1 else 0
  {
    match FromRawValue(section)
    case Some(s) => s.NumberRows()
    case None => 0
  }

  /** The header of a section; the app stops on a section number outside the enum. */
  function TitleForHeaderInSection(section: int): (header: string)
    requires FromRawValue(section).Some?
    ensures header == FromRawValue(section).value.DisplayText()
    ensures header == if section == 0 then "Title" else if section == 1 then "Date" else "Notes"
  {
    FromRawValue(section).value.DisplayText()
  }

  /** No row of the editor can be deleted or reordered. */
  function CanEditRowAt(indexPath: IndexPath): (editable: bool)
    ensures !editable
  {
    false
  }

  /** What a configured editor cell does with the reminder. */
  datatype CellRole = TitleEditor | DateLabel | DateEditor | NotesEditor

  /**
   * The cell a table position gets: its reuse identifier and the role it is
   * configured for. The app stops on a section number outside the enum.
   */
  function CellAt(indexPath: IndexPath): (cell: (string, CellRole))
    requires FromRawValue(indexPath.section).Some?
    ensures cell.0 == FromRawValue(indexPath.section).value.CellIdentifier(indexPath.row)
    ensures cell.1 == DateLabel <==> cell.0 == DateLabelCellIdentifier()
    ensures cell.1 == TitleEditor <==> indexPath.section == 0
    ensures cell.1 == NotesEditor <==> indexPath.section == 2
    ensures cell.1 == DateEditor <==> indexPath.section == 1 && indexPath.row != 0
  {
    var section := FromRawValue(indexPath.section).value;
    var role := match section
      case Title => TitleEditor
      case DueDate => if indexPath.row == 0 then DateLabel else DateEditor
      case Notes => NotesEditor;
    (section.CellIdentifier(indexPath.row), role)
  }

  /**
   * The editor's data source. `reminder` is the copy being edited; the change
   * action is the callback handed in by the creator, modelled by `changes`,
   * the sequence of reminders it has been called with so far.
   */
  class ReminderDetailEditDataSource {
    var reminder: Reminder
    var changes: seq<Reminder>

    constructor (reminder: Reminder)
      ensures this.reminder == reminder
      ensures changes == []
    {
      this.reminder := reminder;
      changes := [];
    }

    /** The title cell's callback: replace the title and report the new reminder. */
    method EditTitle(title: string)
      modifies this
      ensures reminder.title == title
      ensures reminder.id == old(reminder.id) && reminder.dueDate == old(reminder.dueDate)
      ensures reminder.notes == old(reminder.notes) && reminder.isComplete == old(reminder.isComplete)
      ensures changes == old(changes) + [reminder]
    {
      reminder := reminder.(title := title);
      changes := changes + [reminder];
    }

    /** The date picker's callback: replace the due date and report the new reminder. */
    method EditDueDate(dueDate: int)
      modifies this
      ensures reminder.dueDate == dueDate
      ensures reminder.id == old(reminder.id) && reminder.title == old(reminder.title)
      ensures reminder.notes == old(reminder.notes) && reminder.isComplete == old(reminder.isComplete)
      ensures changes == old(changes) + [reminder]
    {
      reminder := reminder.(dueDate := dueDate);
      changes := changes + [reminder];
    }

    /** The notes cell's callback: replace the notes and report the new reminder. */
    method EditNotes(notes: Option<string>)
      modifies this
      ensures reminder.notes == notes
      ensures reminder.id == old(reminder.id) && reminder.title == old(reminder.title)
      ensures reminder.dueDate == old(reminder.dueDate) && reminder.isComplete == old(reminder.isComplete)
      ensures changes == old(changes) + [reminder]
    {
      reminder := reminder.(notes := notes);
      changes := changes + [reminder];
    }
  }
}
