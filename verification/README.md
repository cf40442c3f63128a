# TodayApp reminder list and editor, modelled in Dafny

TodayApp is an iOS reminders app. Its logic, apart from UIKit wiring, is small:

- a reminder list data source. It holds a backing array of reminders and the active filter (Today, Future or All). It shows a view derived from them: the reminders whose due date passes the filter, sorted by due date. It can read a row of that view, prepend a reminder, overwrite a backing slot, and toggle a reminder's completion from the row's check-mark.
- the filter's date predicate.
- the reminder editor's table layout: three sections (title, due date, notes), their row counts, cell identifiers and headers, and the edit callbacks that each replace one field of the reminder being edited.

The model has four modules:

- `ReminderModel` (`reminder_model.dfy`): the `Reminder` value, with an integer timestamp as due date, `notes` defaulting to none and `isComplete` to false.
- `Filters` (`filters.dfy`): the `Filter` enum, its raw values and `ShouldInclude`. The clock and the calendar's "is in today" test are parameters `now: int` and `isInToday: int -> bool`.
- `ReminderList` (`reminder_list.dfy`): the filter and sort steps as functions on sequences, and the class `ReminderListDataSource`. The class has the backing array as a field `testData: seq<Reminder>` and the mutable `filter` field. Its methods update them in place.
- `ReminderDetailEdit` (`reminder_detail_edit.dfy`): the `ReminderSection` enum and the table-layout functions. It also has the class `ReminderDetailEditDataSource`. The class holds the edited reminder and a log of the values passed to the change callback.

The app also declares a `Filter` enum inside the list data source (TodayApp/ReminderList/ReminderListDataSource.swift:13-29). It is identical to the shared one in TodayAppShared/Models/Filter.swift and is modelled once, by `Filters`.

The code has no id-based re-indexing of rows, no write-through to a reminder provider, no delete and no percent-complete figure; it indexes the backing array with the row number it is given, and `add` returns nothing.

## Model

| member | source | states |
|---|---|---|
| ReminderModel.Toggled | TodayApp/ReminderList/ReminderListDataSource.swift:68-69 | the copy has `isComplete` negated and equals the original in every other field |
| Filters.Filter.RawValue | TodayAppShared/Models/Filter.swift:10-13 | every filter's raw value lies in 0..2 |
| Filters.FromRawValue | TodayAppShared/Models/Filter.swift:10-13 | the raw-value initialiser succeeds exactly for 0, 1 and 2 and inverts `RawValue` |
| Filters.RawValueRoundTrip | TodayAppShared/Models/Filter.swift:10-13 | today = 0, future = 1, all = 2, and every filter round-trips through its raw value |
| Filters.ShouldInclude | TodayAppShared/Models/Filter.swift:15-25 | Today includes a date iff it is in today; Future iff it is after now and not in today; All includes every date |
| Filters.TodayFutureDisjoint | TodayAppShared/Models/Filter.swift:16-21 | no date is included by both Today and Future |
| Filters.AllIncludesEveryFilter | TodayAppShared/Models/Filter.swift:15-25 | a date any filter includes is included by All |
| Filters.TodayFuturePartition | TodayAppShared/Models/Filter.swift:16-21 | a date passes Today or Future iff it is in today or after now |
| ReminderList.Included | TodayApp/ReminderList/ReminderListDataSource.swift:34-35 | the filter step keeps, with their multiplicities, exactly the reminders whose due date passes the filter, and nothing else |
| ReminderList.SortByDueDate | TodayApp/ReminderList/ReminderListDataSource.swift:36-38 | the sort step returns a permutation of its input that is non-decreasing by due date |
| ReminderList.FilteredReminders | TodayApp/ReminderList/ReminderListDataSource.swift:33-39 | the view is sorted by due date and, as a multiset, is exactly the backing reminders that pass the filter; it is never longer than the backing array |
| ReminderList.FilteredMembership | TodayApp/ReminderList/ReminderListDataSource.swift:33-39 | a reminder is in the view iff it is in the backing array and passes the filter |
| ReminderList.AllIsPermutation | TodayApp/ReminderList/ReminderListDataSource.swift:33-39 | under All the view is a permutation of the whole backing array, so the counts are equal |
| ReminderList.ToggleAsWritten | TodayApp/ReminderList/ReminderListDataSource.swift:67-71 | the check-mark writes the toggled copy of view row `row` to backing index `row` and leaves the length and every other slot unchanged |
| ReminderList.ToggleAsWrittenOverwritesHiddenReminder | TodayApp/ReminderList/ReminderListDataSource.swift:65-70 | under the default Today filter, tapping the only visible reminder overwrites a hidden one, which is lost, and the list then shows the tapped reminder twice, once ticked and once not |
| ReminderList.ToggleAsWrittenMissesShownReminder | TodayApp/ReminderList/ReminderListDataSource.swift:65-70 | whenever view row `row` and backing slot `row` hold different reminders, the as-written toggle keeps every copy of the shown reminder, the corrected toggle replaces one, and the two results differ |
| ReminderList.UnsortedBackingMismatchesUnderAll | TodayApp/ReminderList/ReminderListDataSource.swift:33-46 | under All, a backing array not in due-date order has a row whose view entry differs from the backing slot of the same number |
| ReminderList.ToggleResolved | TodayApp/ReminderList/ReminderListDataSource.swift:67-71 | corrected check-mark: the toggled copy of the displayed reminder replaces that reminder in a backing slot that holds it, every other slot and the length are kept, so the multiset loses the displayed reminder and gains its toggled copy |
| ReminderList.ToggleResolvedKeepsOthers | TodayApp/ReminderList/ReminderListDataSource.swift:67-71 | after the corrected toggle every reminder other than the tapped one and its toggled copy keeps its multiplicity |
| ReminderList.ToggleResolvedStaysVisible | TodayApp/ReminderList/ReminderListDataSource.swift:67-71 | after the corrected toggle the toggled copy is shown under the same filter |
| ReminderList.ReminderListDataSource.constructor | TodayApp/ReminderList/ReminderListDataSource.swift:31 | a new data source holds the given reminders and its filter is Today |
| ReminderList.ReminderListDataSource.View | TodayApp/ReminderList/ReminderListDataSource.swift:33-39 | the object's `filteredReminders` is sorted by due date and is exactly its backing reminders that pass its filter |
| ReminderList.ReminderListDataSource.SetFilter | TodayApp/ReminderList/ReminderListDataSource.swift:31 | setting the filter changes only the filter |
| ReminderList.ReminderListDataSource.Update | TodayApp/ReminderList/ReminderListDataSource.swift:41-43 | needs a valid backing index; the backing slot `row` becomes the reminder, and the length, every other slot and the filter are unchanged |
| ReminderList.ReminderListDataSource.ReminderAt | TodayApp/ReminderList/ReminderListDataSource.swift:45-47 | needs a valid view row; returns that view entry, which is a backing reminder that passes the filter |
| ReminderList.ReminderListDataSource.Add | TodayApp/ReminderList/ReminderListDataSource.swift:49-51 | the backing array becomes the reminder followed by the old array: one longer, the new reminder at 0, old element i at i+1 |
| ReminderList.ReminderListDataSource.NumberOfRows | TodayApp/ReminderList/ReminderListDataSource.swift:57-59 | the row count is the view's length, at most the backing length, and equal to it under All |
| ReminderList.ReminderListDataSource.ToggleComplete | TodayApp/ReminderList/ReminderListDataSource.swift:65-71 | as written: the backing array becomes `ToggleAsWritten` of the old one (a toggled copy of the view row stored at the same backing index); the filter is unchanged |
| ReminderList.ReminderListDataSource.ToggleCompleteResolved | TodayApp/ReminderList/ReminderListDataSource.swift:65-71 | corrected: the backing array becomes `ToggleResolved` of the old one, so the tapped reminder is toggled in its own slot and nothing else changes; the filter is unchanged |
| ReminderDetailEdit.ReminderSection.RawValue | TodayApp/ReminderDetail/ReminderDetailEditDataSource.swift:14-17 | each section's raw value is a section number in 0..2 |
| ReminderDetailEdit.FromRawValue | TodayApp/ReminderDetail/ReminderDetailEditDataSource.swift:14-17 | the initialiser succeeds exactly for 0, 1 and 2 and inverts `RawValue` |
| ReminderDetailEdit.RawValueRoundTrip | TodayApp/ReminderDetail/ReminderDetailEditDataSource.swift:14-17 | title = 0, dueDate = 1, notes = 2, and every section round-trips |
| ReminderDetailEdit.AllCases | TodayApp/ReminderDetail/ReminderDetailEditDataSource.swift:14-17 | there are three cases, each at the position of its raw value |
| ReminderDetailEdit.ReminderSection.DisplayText | TodayApp/ReminderDetail/ReminderDetailEditDataSource.swift:19-28 | the header text is one of "Title", "Date", "Notes" |
| ReminderDetailEdit.ReminderSection.NumberRows | TodayApp/ReminderDetail/ReminderDetailEditDataSource.swift:30-37 | 2 rows for dueDate, 1 for title and for notes |
| ReminderDetailEdit.ReminderSection.CellIdentifier | TodayApp/ReminderDetail/ReminderDetailEditDataSource.swift:39-48 | "EditTitleCell" for title, "EditNotesCell" for notes, and for dueDate "EditDateLabelCell" in row 0 and "EditDateCell" in any other row |
| ReminderDetailEdit.DateLabelCellIdentifier | TodayApp/ReminderDetail/ReminderDetailEditDataSource.swift:51-53 | it is "EditDateLabelCell", and exactly the dueDate section's row 0 uses it |
| ReminderDetailEdit.CellIdentifiersDistinguishRows | TodayApp/ReminderDetail/ReminderDetailEditDataSource.swift:39-48 | two rows share an identifier iff they are in the same section and, in the dueDate section, both or neither are row 0 |
| ReminderDetailEdit.NumberOfSections | TodayApp/ReminderDetail/ReminderDetailEditDataSource.swift:114-116 | there are 3 sections, exactly the numbers the section initialiser accepts |
| ReminderDetailEdit.NumberOfRowsInSection | TodayApp/ReminderDetail/ReminderDetailEditDataSource.swift:118-120 | the section's `NumberRows` for 0..2 (1, 2, 1), and 0 for any other section number |
| ReminderDetailEdit.TitleForHeaderInSection | TodayApp/ReminderDetail/ReminderDetailEditDataSource.swift:126-132 | needs a valid section; its header is "Title", "Date" or "Notes" for sections 0, 1, 2 |
| ReminderDetailEdit.CanEditRowAt | TodayApp/ReminderDetail/ReminderDetailEditDataSource.swift:134-136 | no row is editable |
| ReminderDetailEdit.CellAt | TodayApp/ReminderDetail/ReminderDetailEditDataSource.swift:70-106 | needs a valid section; the cell uses its section's identifier and is a title editor, date label, date picker or notes editor by section and row, with the label exactly at the date-label identifier |
| ReminderDetailEdit.ReminderDetailEditDataSource.constructor | TodayApp/ReminderDetail/ReminderDetailEditDataSource.swift:65-68 | holds the given reminder; the change callback has not been called |
| ReminderDetailEdit.ReminderDetailEditDataSource.EditTitle | TodayApp/ReminderDetail/ReminderDetailEditDataSource.swift:81-84 | only the title changes, and the updated reminder is passed to the change callback |
| ReminderDetailEdit.ReminderDetailEditDataSource.EditDueDate | TodayApp/ReminderDetail/ReminderDetailEditDataSource.swift:91-93 | only the due date changes, and the updated reminder is passed to the change callback |
| ReminderDetailEdit.ReminderDetailEditDataSource.EditNotes | TodayApp/ReminderDetail/ReminderDetailEditDataSource.swift:101-103 | only the notes change, and the updated reminder is passed to the change callback |

## Findings

| source | as written | input that shows it | evidently intended | confidence | as-written member | corrected member |
|---|---|---|---|---|---|---|
| TodayApp/ReminderList/ReminderListDataSource.swift:67-71 | the check-mark passes the row of the filtered, sorted view to `update`, which indexes the unfiltered backing array (line 42) | backing `[a due 5, b due 10]`, only 10 is today, filter Today: the view is `[b]`; tapping row 0 stores toggled `b` over `a`, so `a` is lost and the list shows `b` twice, once ticked | toggle the reminder that was tapped, in its own backing slot | high; not executed | ReminderList.ToggleAsWrittenOverwritesHiddenReminder | ReminderList.ToggleResolved |

The edit callback at TodayApp/ReminderList/ReminderListViewController.swift:45 passes a view row to `update` in the same way. The view controller is not part of this model. The mismatch also occurs under All whenever the backing array is not already in due-date order (`UnsortedBackingMismatchesUnderAll`), and at any row where the view and the backing array differ the as-written toggle misses the shown reminder (`ToggleAsWrittenMissesShownReminder`).

## Left out

- The view controllers (ReminderListViewController.swift, ReminderDetailViewController.swift): navigation, segues, storyboards and bar buttons.
- The edit cells, cell dequeuing, `reloadRows`, `insertRows` and cell images: UIKit calls with no state of their own. EditTitleCell, EditNotesCell and EditDateCell's `configure` take no change handler, so the closures are modelled from the editor data source alone.
- Date and relative-date formatting, the view-mode detail data source and `NSLocalizedString`: their output comes from Foundation formatters.
- The clock and the calendar. They are the parameters `now` and `isInToday`. `Date` is floating point in the app; the model uses integer timestamps.
- ReminderList.FilteredReminders: takes one `now` for the whole pass, whereas the code reads the clock again for each reminder it tests under Future.
- ReminderList.SortByDueDate: fixes one order among reminders with equal due dates. The library sort the app uses does not promise one, so no property about ties is claimed, and the row-level results `ReminderAt` and `ToggleComplete` hold for this order only.
- ReminderList.ReminderListDataSource: the backing array is a process-wide static array in the app, shared by every data source. The model gives each object its own copy and takes the initial contents as a constructor argument. Aliasing between two data sources is not modelled.
- ReminderList.ReminderListDataSource.ToggleComplete: the closure captures the reminder when the cell is configured and writes it when tapped. The model reads and writes in one step, assuming the array and filter are unchanged in between.
- ReminderDetailEdit.ReminderDetailEditDataSource: the change callback is optional in the app. The constructor always sets it, so the model treats it as always present and records each call in `changes`.
- Reminder-provider access, permissions, fetch and save, change notifications, delete and percent-complete: not in this code.
