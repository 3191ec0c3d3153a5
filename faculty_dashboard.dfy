/**
 * The form guards and quick actions of the faculty dashboard
 * (frontend/src/pages/FacultyDashboard.tsx). Dates are the `YYYY-MM-DD`
 * strings of the date inputs and are compared as strings; today's string
 * comes from the clock and is a parameter. The HTTP calls themselves are
 * not modelled: a guard either lets the form submit or raises an alert.
 */
module FacultyDashboard {
  import opened Wrappers
  import opened JsStrings
  import opened Models
  import opened TaskController

  datatype FormCheck = Submit | Alert(message: string)

  const StartInPastMessage: string := "Start date cannot be in the past."
  const EndBeforeStartMessage: string := "End date must be after start date."
  const DeadlineInPastMessage: string := "Deadline cannot be in the past."

  /**
   * `handleRequestLeave`: a start before today is refused first; then an end
   * before the start. Starting today and ending on the start day both pass.
   */
  function LeaveGuard(startDate: string, endDate: string, today: string): (r: FormCheck)
    ensures r == Submit <==> !StrLess(startDate, today) && !StrLess(endDate, startDate)
    ensures StrLess(startDate, today) ==> r == Alert(StartInPastMessage)
    ensures !StrLess(startDate, today) && StrLess(endDate, startDate) ==> r == Alert(EndBeforeStartMessage)
  {
    if StrLess(startDate, today) then Alert(StartInPastMessage)
    else if StrLess(endDate, startDate) then Alert(EndBeforeStartMessage)
    else Submit
  }

  /** `handleAssignTask`: a deadline before today is refused; any other string is sent. */
  function DeadlineGuard(deadline: string, today: string): (r: FormCheck)
    ensures r == Submit <==> !StrLess(deadline, today)
    ensures r.Alert? ==> r.message == DeadlineInPastMessage
  {
    if StrLess(deadline, today) then Alert(DeadlineInPastMessage) else Submit
  }

  // ---------------------------------------------------------------------
  // String order is calendar order on YYYY-MM-DD
  // ---------------------------------------------------------------------

  predicate IsDateString(s: string) {
    && |s| == 10
    && AllDigits(s[0..4]) && s[4] == '-' && AllDigits(s[5..7]) && s[7] == '-' && AllDigits(s[8..10])
  }

  function Year(s: string): nat requires IsDateString(s) { DigitsValue(s[0..4]) }
  function Month(s: string): nat requires IsDateString(s) { DigitsValue(s[5..7]) }
  function Day(s: string): nat requires IsDateString(s) { DigitsValue(s[8..10]) }

  /** Calendar order on the (year, month, day) the strings spell. */
  predicate DateBefore(a: string, b: string)
    requires IsDateString(a) && IsDateString(b)
  {
    Year(a) < Year(b)
    || (Year(a) == Year(b) && (Month(a) < Month(b) || (Month(a) == Month(b) && Day(a) < Day(b))))
  }

  /** Comparing a digit field followed by more text: the field decides unless the two fields are equal. */
  lemma FieldThen(x1: string, y1: string, x2: string, y2: string)
    requires |x1| == |x2| && AllDigits(x1) && AllDigits(x2)
    ensures StrLess(x1 + y1, x2 + y2) ==
      if DigitsValue(x1) == DigitsValue(x2) then StrLess(y1, y2) else DigitsValue(x1) < DigitsValue(x2)
  {
    StrLessConcat(x1, y1, x2, y2);
    DigitsOrder(x1, x2);
  }

  /** A shared separator does not affect the comparison. */
  lemma DashThen(y1: string, y2: string)
    ensures StrLess("-" + y1, "-" + y2) == StrLess(y1, y2)
  {
    StrLessConcat("-", y1, "-", y2);
  }

  /** For well-formed date strings, the lexicographic `<` of the source is exactly calendar order. */
  lemma {:induction false} DateOrder(a: string, b: string)
    requires IsDateString(a) && IsDateString(b)
    ensures StrLess(a, b) <==> DateBefore(a, b)
  {
    assert a == a[0..4] + ("-" + (a[5..7] + ("-" + a[8..10])));
    assert b == b[0..4] + ("-" + (b[5..7] + ("-" + b[8..10])));
    FieldThen(a[0..4], "-" + (a[5..7] + ("-" + a[8..10])), b[0..4], "-" + (b[5..7] + ("-" + b[8..10])));
    DashThen(a[5..7] + ("-" + a[8..10]), b[5..7] + ("-" + b[8..10]));
    FieldThen(a[5..7], "-" + a[8..10], b[5..7], "-" + b[8..10]);
    DashThen(a[8..10], b[8..10]);
    DigitsOrder(a[8..10], b[8..10]);
  }

  /** On date strings, a leave request is sent exactly when it starts today or later and ends no earlier than it starts. */
  lemma LeaveGuardCalendar(startDate: string, endDate: string, today: string)
    requires IsDateString(startDate) && IsDateString(endDate) && IsDateString(today)
    ensures LeaveGuard(startDate, endDate, today) == Submit <==>
      !DateBefore(startDate, today) && !DateBefore(endDate, startDate)
  {
    DateOrder(startDate, today);
    DateOrder(endDate, startDate);
  }

  /** On date strings, a task is sent exactly when its deadline is today or later. */
  lemma DeadlineGuardCalendar(deadline: string, today: string)
    requires IsDateString(deadline) && IsDateString(today)
    ensures DeadlineGuard(deadline, today) == Submit <==> !DateBefore(deadline, today)
  {
    DateOrder(deadline, today);
  }

  /** A one-day leave starting today is allowed. */
  lemma OneDayLeaveToday(today: string)
    ensures LeaveGuard(today, today, today) == Submit
  {
    StrLessIrreflexive(today);
  }

  /** An empty start date (the input left blank) is refused as being in the past. */
  lemma {:induction false} BlankStartRefused(endDate: string, today: string)
    requires today != ""
    ensures LeaveGuard("", endDate, today) == Alert(StartInPastMessage)
  {
  }

  // ---------------------------------------------------------------------
  // Quick actions
  // ---------------------------------------------------------------------

  const StartWorking: TaskUpdate := TaskUpdate(Some("In Progress"), Some(50))
  const MarkDone: TaskUpdate := TaskUpdate(Some("Completed"), Some(100))

  /** The quick-action buttons offered on a task card. */
  function QuickActions(status: string, role: Option<string>): (r: seq<TaskUpdate>)
    ensures r == [] <==> status == "Completed" || role == Some("hod")
    ensures r != [] ==> r == [StartWorking, MarkDone]
  {
    if status != "Completed" && role != Some("hod") then [StartWorking, MarkDone] else []
  }

  /** Whatever the task's status, 'Start Working' leaves it In Progress at 50, a progress the store accepts. */
  lemma StartWorkingEffect(t: Task)
    ensures ApplyUpdate(t, StartWorking).status == "In Progress"
    ensures ApplyUpdate(t, StartWorking).progress == 50
    ensures ProgressValid(ApplyUpdate(t, StartWorking).progress)
  {
  }

  /** 'Mark Done' leaves the task Completed at 100, a progress the store accepts. */
  lemma MarkDoneEffect(t: Task)
    ensures ApplyUpdate(t, MarkDone).status == "Completed"
    ensures ApplyUpdate(t, MarkDone).progress == 100
    ensures ProgressValid(ApplyUpdate(t, MarkDone).progress)
  {
  }
}
