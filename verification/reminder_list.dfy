/**
 * The reminder list's data source: a backing array of reminders, the active
 * filter, and the filtered, date-sorted view the table shows.
 */
module ReminderList {
  import opened ReminderModel
  import opened Filters

  /** Non-decreasing by due date. */
  predicate SortedByDueDate(s: seq<Reminder>)
  {
    forall i, j :: 0 <= i < j < |s| ==> s[i].dueDate <= s[j].dueDate
  }

  /**
   * The array `filter` step: the reminders of `s` whose due date passes `f`,
   * in the order of `s`.
   */
  function Included(s: seq<Reminder>, f: Filter, now: int, isInToday: int -> bool): (r: seq<Reminder>)
    ensures |r| <= |s|
    ensures forall i :: 0 <= i < |r| ==> ShouldInclude(f, r[i].dueDate, now, isInToday)
    ensures forall x :: multiset(r)[x] == if ShouldInclude(f, x.dueDate, now, isInToday) then multiset(s)[x] else 0
  {
    if s == [] then []
    else
      var rest := Included(s[1..], f, now, isInToday);
      assert s == [s[0]] + s[1..];
      if ShouldInclude(f, s[0].dueDate, now, isInToday) then [s[0]] + rest else rest
  }

  /** Insert `x` into a date-sorted sequence, keeping it sorted. */
  function InsertByDueDate(x: Reminder, s: seq<Reminder>): (r: seq<Reminder>)
    requires SortedByDueDate(s)
    ensures SortedByDueDate(r)
    ensures multiset(r) == multiset(s) + multiset{x}
    ensures |r| == |s| + 1
    ensures r[0] == x || (s != [] && r[0] == s[0])
  {
    if s == [] || x.dueDate <= s[0].dueDate then [x] + s
    else
      var rest := InsertByDueDate(x, s[1..]);
      assert s == [s[0]] + s[1..];
      assert s[0].dueDate <= rest[0].dueDate;
      [s[0]] + rest
  }

  /**
   * The array `sorted` step, ordered by due date. Only the order by date is
   * fixed; the model's order among equal due dates is its own choice.
   */
  function SortByDueDate(s: seq<Reminder>): (r: seq<Reminder>)
    ensures SortedByDueDate(r)
    ensures multiset(r) == multiset(s)
    ensures |r| == |s|
  {
    if s == [] then []
    else
      assert s == [s[0]] + s[1..];
      InsertByDueDate(s[0], SortByDueDate(s[1..]))
  }

  /**
   * The `filteredReminders` view of a backing array under a filter: a sorted
   * rearrangement of exactly the backing reminders that pass the filter.
   */
  function FilteredReminders(backing: seq<Reminder>, f: Filter, now: int, isInToday: int -> bool): (view: seq<Reminder>)
    ensures SortedByDueDate(view)
    ensures forall x :: multiset(view)[x] == if ShouldInclude(f, x.dueDate, now, isInToday) then multiset(backing)[x] else 0
    ensures |view| <= |backing|
  {
    SortByDueDate(Included(backing, f, now, isInToday))
  }

  /** A reminder is in the view exactly when it is in the backing array and passes the filter. */
  lemma FilteredMembership(backing: seq<Reminder>, f: Filter, now: int, isInToday: int -> bool, x: Reminder)
    ensures x in FilteredReminders(backing, f, now, isInToday)
            <==> x in backing && ShouldInclude(f, x.dueDate, now, isInToday)
  {
    var view := FilteredReminders(backing, f, now, isInToday);
    assert x in view <==> multiset(view)[x] > 0;
    assert x in backing <==> multiset(backing)[x] > 0;
  }

  /** Under All the view is a permutation of the whole backing array. */
  lemma AllIsPermutation(backing: seq<Reminder>, now: int, isInToday: int -> bool)
    ensures multiset(FilteredReminders(backing, All, now, isInToday)) == multiset(backing)
    ensures |FilteredReminders(backing, All, now, isInToday)| == |backing|
  {
    var view := FilteredReminders(backing, All, now, isInToday);
    assert forall x :: multiset(view)[x] == multiset(backing)[x];
    assert multiset(view) == multiset(backing);
    assert |multiset(view)| == |view|;
  }

  /**
   * What the check-mark in row `row` writes into the backing array, as the
   * code is written: the displayed reminder `view[row]`, toggled, stored at
   * BACKING index `row`.
   */
  function ToggleAsWritten(backing: seq<Reminder>, f: Filter, now: int, isInToday: int -> bool, row: int): (r: seq<Reminder>)
    requires 0 <= row < |FilteredReminders(backing, f, now, isInToday)|
    ensures |r| == |backing|
    ensures r[row] == Toggled(FilteredReminders(backing, f, now, isInToday)[row])
    ensures forall i :: 0 <= i < |r| && i != row ==> r[i] == backing[i]
  {
    backing[row := Toggled(FilteredReminders(backing, f, now, isInToday)[row])]
  }

  /**
   * With the default Today filter, tapping the only visible reminder
   * overwrites a different, hidden reminder: backing [a, b] with only b due
   * today shows [b]; the toggled b lands at index 0, so a is lost and the
   * list then shows b twice, once ticked and once not.
   */
  lemma ToggleAsWrittenOverwritesHiddenReminder()
    ensures var a := Reminder("a", "Hidden", 5);
            var b := Reminder("b", "Shown", 10);
            var isInToday := (d: int) => d == 10;
            var after := ToggleAsWritten([a, b], Today, 0, isInToday, 0);
            FilteredReminders([a, b], Today, 0, isInToday) == [b]
            && after == [Toggled(b), b]
            && a !in after
            && Toggled(b) in FilteredReminders(after, Today, 0, isInToday)
            && b in FilteredReminders(after, Today, 0, isInToday)
  {
    var a := Reminder("a", "Hidden", 5);
    var b := Reminder("b", "Shown", 10);
    var isInToday := (d: int) => d == 10;
    var after := ToggleAsWritten([a, b], Today, 0, isInToday, 0);
    assert after == [Toggled(b), b];
    FilteredMembership(after, Today, 0, isInToday, Toggled(b));
    FilteredMembership(after, Today, 0, isInToday, b);
  }

  /**
   * Whenever view row `row` and backing slot `row` hold different reminders,
   * the as-written toggle leaves the backing array in a different state from
   * the resolved one: the shown reminder keeps all its copies instead of
   * losing one to its toggled version.
   */
  lemma ToggleAsWrittenMissesShownReminder(backing: seq<Reminder>, f: Filter, now: int, isInToday: int -> bool, row: int)
    requires 0 <= row < |FilteredReminders(backing, f, now, isInToday)|
    requires FilteredReminders(backing, f, now, isInToday)[row] != backing[row]
    ensures var shown := FilteredReminders(backing, f, now, isInToday)[row];
            multiset(ToggleAsWritten(backing, f, now, isInToday, row))[shown] == multiset(backing)[shown]
            && multiset(ToggleResolved(backing, f, now, isInToday, row))[shown] == multiset(backing)[shown] - 1
            && ToggleAsWritten(backing, f, now, isInToday, row) != ToggleResolved(backing, f, now, isInToday, row)
  {
    var shown := FilteredReminders(backing, f, now, isInToday)[row];
    var written := ToggleAsWritten(backing, f, now, isInToday, row);
    var resolved := ToggleResolved(backing, f, now, isInToday, row);
    ReplaceMultiset(backing, row, Toggled(shown));
    assert multiset(written)[shown] == multiset(backing)[shown];
    FilteredMembership(backing, f, now, isInToday, shown);
    assert multiset(resolved)[shown] == multiset(backing)[shown] - 1;
  }

  /**
   * Under All the mismatch happens as soon as the backing array is not in
   * due-date order: some row of the view holds a different reminder from the
   * backing slot with the same number.
   */
  lemma UnsortedBackingMismatchesUnderAll(backing: seq<Reminder>, now: int, isInToday: int -> bool)
    requires !SortedByDueDate(backing)
    ensures exists row :: 0 <= row < |backing| && row < |FilteredReminders(backing, All, now, isInToday)|
                          && FilteredReminders(backing, All, now, isInToday)[row] != backing[row]
  {
    var view := FilteredReminders(backing, All, now, isInToday);
    AllIsPermutation(backing, now, isInToday);
    assert view != backing;
  }

  /** The index in `s` of the first occurrence of `x`. */
  function IndexOf(s: seq<Reminder>, x: Reminder): (i: nat)
    requires x in s
    ensures i < |s| && s[i] == x
    ensures forall j :: 0 <= j < i ==> s[j] != x
  {
    if s[0] == x then 0 else 1 + IndexOf(s[1..], x)
  }

  /**
   * What the check-mark should write: the displayed reminder, toggled, at the
   * backing index where that reminder is stored.
   */
  function ToggleResolved(backing: seq<Reminder>, f: Filter, now: int, isInToday: int -> bool, row: int): (r: seq<Reminder>)
    requires 0 <= row < |FilteredReminders(backing, f, now, isInToday)|
    ensures |r| == |backing|
    ensures var shown := FilteredReminders(backing, f, now, isInToday)[row];
            exists k :: 0 <= k < |backing| && backing[k] == shown && r == backing[k := Toggled(shown)]
    ensures var shown := FilteredReminders(backing, f, now, isInToday)[row];
            multiset(r) == multiset(backing) - multiset{shown} + multiset{Toggled(shown)}
  {
    var shown := FilteredReminders(backing, f, now, isInToday)[row];
    FilteredMembership(backing, f, now, isInToday, shown);
    var k := IndexOf(backing, shown);
    ReplaceMultiset(backing, k, Toggled(shown));
    assert backing[k] == shown;
    backing[k := Toggled(shown)]
  }

  /** Replacing one slot swaps one occurrence in the multiset of elements. */
  lemma ReplaceMultiset(s: seq<Reminder>, k: nat, y: Reminder)
    requires k < |s|
    ensures multiset(s[k := y]) == multiset(s) - multiset{s[k]} + multiset{y}
  {
    assert s == s[..k] + [s[k]] + s[k + 1..];
    assert s[k := y] == s[..k] + [y] + s[k + 1..];
  }

  /**
   * The resolved toggle keeps every other reminder: only the tapped one is
   * replaced, by its toggled copy.
   */
  lemma ToggleResolvedKeepsOthers(backing: seq<Reminder>, f: Filter, now: int, isInToday: int -> bool, row: int)
    requires 0 <= row < |FilteredReminders(backing, f, now, isInToday)|
    ensures var shown := FilteredReminders(backing, f, now, isInToday)[row];
            forall x :: x != shown && x != Toggled(shown) ==>
              multiset(ToggleResolved(backing, f, now, isInToday, row))[x] == multiset(backing)[x]
  {
  }

  /** After the resolved toggle, the toggled copy is still shown under the same filter. */
  lemma ToggleResolvedStaysVisible(backing: seq<Reminder>, f: Filter, now: int, isInToday: int -> bool, row: int)
    requires 0 <= row < |FilteredReminders(backing, f, now, isInToday)|
    ensures var shown := FilteredReminders(backing, f, now, isInToday)[row];
            Toggled(shown) in FilteredReminders(ToggleResolved(backing, f, now, isInToday, row), f, now, isInToday)
  {
    var view := FilteredReminders(backing, f, now, isInToday);
    var shown := view[row];
    var after := ToggleResolved(backing, f, now, isInToday, row);
    assert shown in view;
    FilteredMembership(backing, f, now, isInToday, shown);
    var m := multiset(backing) - multiset{shown} + multiset{Toggled(shown)};
    assert multiset(after) == m && m[Toggled(shown)] > 0;
    assert Toggled(shown) in after;
    FilteredMembership(after, f, now, isInToday, Toggled(shown));
  }

  /**
   * The list's data source. `testData` is the backing array of reminders
   * (a process-wide array in the app) and `filter` the active filter.
   */
  class ReminderListDataSource {
    var testData: seq<Reminder>
    var filter: Filter

    /** A data source over the given reminders; the filter starts at Today. */
    constructor (testData: seq<Reminder>)
      ensures this.testData == testData
      ensures filter == Today
    {
      this.testData := testData;
      filter := Today;
    }

    /** The view the table shows, for the current time and calendar. */
    function View(now: int, isInToday: int -> bool): (view: seq<Reminder>)
      reads this
      ensures SortedByDueDate(view)
      ensures forall x :: multiset(view)[x] == if ShouldInclude(filter, x.dueDate, now, isInToday) then multiset(testData)[x] else 0
    {
      FilteredReminders(testData, filter, now, isInToday)
    }

    /** Choosing a filter from the segmented control. */
    method SetFilter(f: Filter)
      modifies this
      ensures filter == f
      ensures testData == old(testData)
    {
      filter := f;
    }

    /** Overwrite slot `row` of the backing array (not of the view). */
    method Update(reminder: Reminder, row: int)
      requires 0 <= row < |testData|
      modifies this
      ensures |testData| == |old(testData)|
      ensures testData[row] == reminder
      ensures forall i :: 0 <= i < |testData| && i != row ==> testData[i] == old(testData)[i]
      ensures filter == old(filter)
    {
      testData := testData[row := reminder];
    }

    /** The reminder shown in table row `row`. */
    method ReminderAt(row: int, now: int, isInToday: int -> bool) returns (r: Reminder)
      requires 0 <= row < |View(now, isInToday)|
      ensures r == View(now, isInToday)[row]
      ensures r in testData && ShouldInclude(filter, r.dueDate, now, isInToday)
    {
      r := View(now, isInToday)[row];
      FilteredMembership(testData, filter, now, isInToday, r);
    }

    /** Insert a reminder at the front of the backing array. */
    method Add(reminder: Reminder)
      modifies this
      ensures testData == [reminder] + old(testData)
      ensures |testData| == |old(testData)| + 1 && testData[0] == reminder
      ensures forall i :: 0 <= i < |old(testData)| ==> testData[i + 1] == old(testData)[i]
      ensures filter == old(filter)
    {
      testData := [reminder] + testData;
    }

    /** The number of table rows: the size of the view, never more than the backing array. */
    method NumberOfRows(now: int, isInToday: int -> bool) returns (n: nat)
      ensures n == |View(now, isInToday)|
      ensures n <= |testData|
      ensures filter == All ==> n == |testData|
    {
      n := |View(now, isInToday)|;
      if filter == All {
        AllIsPermutation(testData, now, isInToday);
      }
    }

    /**
     * The check-mark closure of row `row`, as written: toggle a copy of the
     * displayed reminder and hand it to Update with the same row number.
     */
    method ToggleComplete(row: int, now: int, isInToday: int -> bool)
      requires 0 <= row < |View(now, isInToday)|
      modifies this
      ensures testData == ToggleAsWritten(old(testData), old(filter), now, isInToday, row)
      ensures filter == old(filter)
    {
      var reminder := ReminderAt(row, now, isInToday);
      var modified := Toggled(reminder);
      Update(modified, row);
    }

    /**
     * The check-mark closure with the row resolved to the backing index
     * where the displayed reminder is stored.
     */
    method ToggleCompleteResolved(row: int, now: int, isInToday: int -> bool)
      requires 0 <= row < |View(now, isInToday)|
      modifies this
      ensures testData == ToggleResolved(old(testData), old(filter), now, isInToday, row)
      ensures filter == old(filter)
    {
      var reminder := ReminderAt(row, now, isInToday);
      var k := IndexOf(testData, reminder);
      Update(Toggled(reminder), k);
      assert testData == old(testData)[k := Toggled(reminder)];
    }
  }
}
