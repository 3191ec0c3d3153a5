/**
 * The three records of the database: users, tasks (backend/models/taskModel.js)
 * and leave requests (backend/models/leaveModel.js), with the defaults, the
 * required fields and the save-time validation the schemas declare, and the
 * associations from a task or a leave to the users it refers to.
 */
module Models {
  import opened Wrappers

  /** Primary keys (UUID strings). */
  type Id = string

  /**
   * An account as the controllers read and write it. The user schema itself
   * is not part of this model; these are the fields the controllers use.
   * `password` holds the stored hash.
   */
  datatype User = User(
    id: Id,
    name: string,
    email: string,
    password: string,
    role: string,
    department: Option<string>,
    designation: Option<string>,
    isApproved: bool)

  // ---------------------------------------------------------------------
  // Task
  // ---------------------------------------------------------------------

  /** The values of the task status ENUM, in declaration order. */
  const TaskStatuses: seq<string> := ["Pending", "In Progress", "Completed"]
  const DefaultTaskStatus: string := "Pending"
  const DefaultProgress: int := 0

  predicate IsTaskStatus(s: string) {
    s == "Pending" || s == "In Progress" || s == "Completed"
  }

  /** The range validator on `progress` (min 0, max 100). */
  predicate ProgressValid(p: int) {
    0 <= p <= 100
  }

  /**
   * A stored task. `status` is kept as the string that was written: the ENUM
   * declares three values, and the model does not assume the database layer
   * rejects others (see `IsTaskStatus` for the declared set).
   */
  datatype Task = Task(
    id: Id,
    title: string,
    description: Option<string>,
    deadline: Option<string>,
    status: string,
    progress: int,
    assignedToId: Id,
    assignedById: Id)

  /** Conforms to the declared schema, enum included. */
  predicate TaskWellFormed(t: Task) {
    IsTaskStatus(t.status) && ProgressValid(t.progress)
  }

  /** The attributes handed to `Task.create`; None is an attribute left undefined. */
  datatype TaskInput = TaskInput(
    id: Id,
    title: Option<string>,
    description: Option<string>,
    deadline: Option<string>,
    status: Option<string>,
    progress: Option<int>,
    assignedToId: Option<Id>,
    assignedById: Option<Id>)

  /** Why the ORM refuses to insert or save a record. */
  datatype SchemaError = NotNullViolation(field: string) | RangeViolation(field: string, validator: string)

  /** The built-in validator of `progress` a value fails: `min` below 0, `max` above 100. */
  function ProgressValidator(p: int): (v: string)
    requires !ProgressValid(p)
    ensures v == "min" <==> p < 0
    ensures v == "max" <==> p > 100
  {
    if p < 0 then "min" else "max"
  }

  /** The message of the ORM's validation error for a failed built-in validator that has no message of its own. */
  function ValidatorMessage(validator: string, field: string): string {
    "Validation error: Validation " + validator + " on " + field + " failed"
  }

  datatype Created<T> = Inserted(record: T) | Refused(error: SchemaError)

  /**
   * `Task.create`: the non-null columns must be given, absent status and
   * progress take their defaults, and progress must pass its range validator.
   */
  function CreateTaskRecord(input: TaskInput): (r: Created<Task>)
    ensures r.Inserted? <==>
      && input.title.Some? && input.assignedToId.Some? && input.assignedById.Some?
      && ProgressValid(input.progress.GetOr(DefaultProgress))
    ensures r.Inserted? ==>
      && r.record.id == input.id
      && r.record.title == input.title.value
      && r.record.description == input.description
      && r.record.deadline == input.deadline
      && r.record.status == input.status.GetOr(DefaultTaskStatus)
      && r.record.progress == input.progress.GetOr(DefaultProgress)
      && r.record.assignedToId == input.assignedToId.value
      && r.record.assignedById == input.assignedById.value
  {
    if input.title.None? then Refused(NotNullViolation("title"))
    else if input.assignedToId.None? then Refused(NotNullViolation("assignedToId"))
    else if input.assignedById.None? then Refused(NotNullViolation("assignedById"))
    else
      var progress := input.progress.GetOr(DefaultProgress);
      if !ProgressValid(progress) then Refused(RangeViolation("progress", ProgressValidator(progress)))
      else Inserted(Task(input.id, input.title.value, input.description, input.deadline,
                         input.status.GetOr(DefaultTaskStatus), progress,
                         input.assignedToId.value, input.assignedById.value))
  }

  /** A task created without status or progress is Pending at 0 and conforms to the schema. */
  lemma TaskDefaults(input: TaskInput)
    requires input.title.Some? && input.assignedToId.Some? && input.assignedById.Some?
    requires input.status.None? && input.progress.None?
    ensures CreateTaskRecord(input).Inserted?
    ensures CreateTaskRecord(input).record.status == "Pending"
    ensures CreateTaskRecord(input).record.progress == 0
    ensures TaskWellFormed(CreateTaskRecord(input).record)
  {
  }

  /** The `assignedUser` association: the user whose id is `assignedToId`, if any. */
  function AssignedUser(t: Task, users: map<Id, User>): (u: Option<User>)
    ensures u.Some? <==> t.assignedToId in users
    ensures u.Some? ==> u.value == users[t.assignedToId]
  {
    if t.assignedToId in users then Some(users[t.assignedToId]) else None
  }

  /** The `creatorUser` association: the user whose id is `assignedById`, if any. */
  function CreatorUser(t: Task, users: map<Id, User>): (u: Option<User>)
    ensures u.Some? <==> t.assignedById in users
    ensures u.Some? ==> u.value == users[t.assignedById]
  {
    if t.assignedById in users then Some(users[t.assignedById]) else None
  }

  // ---------------------------------------------------------------------
  // Leave
  // ---------------------------------------------------------------------

  /** The values of the leave status ENUM, in declaration order. */
  const LeaveStatuses: seq<string> := ["Pending", "Approved", "Rejected"]
  const DefaultLeaveStatus: string := "Pending"

  predicate IsLeaveStatus(s: string) {
    s == "Pending" || s == "Approved" || s == "Rejected"
  }

  /** A stored leave request; `status` is kept as written, like a task's. */
  datatype Leave = Leave(
    id: Id,
    reason: string,
    startDate: string,
    endDate: string,
    status: string,
    adminComment: Option<string>,
    userId: Id)

  predicate LeaveWellFormed(l: Leave) {
    IsLeaveStatus(l.status)
  }

  /** The attributes handed to `Leave.create`. */
  datatype LeaveInput = LeaveInput(
    id: Id,
    reason: Option<string>,
    startDate: Option<string>,
    endDate: Option<string>,
    status: Option<string>,
    adminComment: Option<string>,
    userId: Option<Id>)

  /** `Leave.create`: reason, both dates and the owner are required; status defaults to Pending. */
  function CreateLeaveRecord(input: LeaveInput): (r: Created<Leave>)
    ensures r.Inserted? <==>
      input.reason.Some? && input.startDate.Some? && input.endDate.Some? && input.userId.Some?
    ensures r.Inserted? ==>
      && r.record.id == input.id
      && r.record.reason == input.reason.value
      && r.record.startDate == input.startDate.value
      && r.record.endDate == input.endDate.value
      && r.record.status == input.status.GetOr(DefaultLeaveStatus)
      && r.record.adminComment == input.adminComment
      && r.record.userId == input.userId.value
  {
    if input.reason.None? then Refused(NotNullViolation("reason"))
    else if input.startDate.None? then Refused(NotNullViolation("startDate"))
    else if input.endDate.None? then Refused(NotNullViolation("endDate"))
    else if input.userId.None? then Refused(NotNullViolation("userId"))
    else Inserted(Leave(input.id, input.reason.value, input.startDate.value, input.endDate.value,
                        input.status.GetOr(DefaultLeaveStatus), input.adminComment, input.userId.value))
  }

  /** The owner association of a leave (`Leave.belongsTo(User)`). */
  function LeaveOwner(l: Leave, users: map<Id, User>): (u: Option<User>)
    ensures u.Some? <==> l.userId in users
    ensures u.Some? ==> u.value == users[l.userId]
  {
    if l.userId in users then Some(users[l.userId]) else None
  }
}
