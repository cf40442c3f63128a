/** The value types shared by the reminder list and the reminder editor. */
module ReminderModel {

  /** An optional value, standing for Swift's `T?`. */
  datatype Option<T> = None | Some(value: T)

  /**
   * A reminder is a plain value (a Swift struct): copies are independent and
   * a change to one field leaves the others as they were. The due date is an
   * integer timestamp; `notes` defaults to none and `isComplete` to false,
   * as the struct's memberwise initialiser does.
   */
  datatype Reminder = Reminder(
    id: string,
    title: string,
    dueDate: int,
    notes: Option<string> := None,
    isComplete: bool := false)

  /** The reminder the list's check-mark writes back: a copy with `isComplete` flipped. */
  function Toggled(r: Reminder): (t: Reminder)
    ensures t.isComplete == !r.isComplete
    ensures t.(isComplete := r.isComplete) == r
  {
    r.(isComplete := !r.isComplete)
  }
}
