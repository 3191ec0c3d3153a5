/**
 * Task creation, listing and progress updates
 * (backend/controllers/taskController.js). The requester is the account the
 * `protect` guard resolved; the new task's id is a parameter.
 */
module TaskController {
  import opened Wrappers
  import opened Models
  import opened Store
  import opened JsStrings

  /** Roles that may assign tasks and that see every task. */
  predicate AssignsTasks(role: string) {
    role == "admin" || role == "hod"
  }

  // ---------------------------------------------------------------------
  // createTask
  // ---------------------------------------------------------------------

  datatype TaskBody = TaskBody(
    title: Option<string>, description: Option<string>, assignedTo: Option<Id>, deadline: Option<string>)

  const NotAuthorizedToAssign: string := "Not authorized to assign tasks"

  /** The attributes `createTask` hands to the ORM: Pending, progress 0, created by the requester. */
  function NewTaskInput(id: Id, requester: User, body: TaskBody): TaskInput {
    TaskInput(id, body.title, body.description, body.deadline, Some("Pending"), Some(0),
              body.assignedTo, Some(requester.id))
  }

  function SchemaMessage(e: SchemaError): string {
    match e
    case NotNullViolation(f) => "notNull Violation: Task." + f + " cannot be null"
    case RangeViolation(f, v) => ValidatorMessage(v, f)
  }

  /**
   * `createTask`: only admin and hod may create; the new task is Pending at
   * progress 0, assigned by the requester to the body's `assignedTo`. A missing
   * title or assignee fails the ORM's not-null check (500); an assignee or
   * requester that is no stored account fails the foreign key on insert (500).
   */
  method CreateTask(db: Db, requester: User, body: TaskBody, freshId: Id) returns (r: Reply<Task>)
    requires db.Valid() && freshId !in db.tasks
    modifies db
    ensures db.Valid()
    ensures db.users == old(db.users) && db.leaves == old(db.leaves)
    ensures !AssignsTasks(requester.role) ==>
      r == Fail(403, NotAuthorizedToAssign) && db.tasks == old(db.tasks)
    ensures AssignsTasks(requester.role) && (body.title.None? || body.assignedTo.None?) ==>
      r.Fail? && r.code == 500 && db.tasks == old(db.tasks)
    ensures AssignsTasks(requester.role) && body.title.Some? && body.assignedTo.Some? &&
            (body.assignedTo.value !in old(db.users) || requester.id !in old(db.users)) ==>
      r == Fail(500, ForeignKeyMessage) && db.tasks == old(db.tasks)
    ensures AssignsTasks(requester.role) && body.title.Some? && body.assignedTo.Some? &&
            body.assignedTo.value in old(db.users) && requester.id in old(db.users) ==>
      && r.Ok? && r.code == 201
      && r.body == Task(freshId, body.title.value, body.description, body.deadline,
                        "Pending", 0, body.assignedTo.value, requester.id)
      && db.tasks == old(db.tasks)[freshId := r.body]
    ensures ReferencesResolve(old(db.users), old(db.tasks), old(db.leaves)) ==>
      ReferencesResolve(db.users, db.tasks, db.leaves)
  {
    if !AssignsTasks(requester.role) {
      return Fail(403, NotAuthorizedToAssign);
    }
    var created := CreateTaskRecord(NewTaskInput(freshId, requester, body));
    match created {
      case Refused(e) =>
        r := Fail(500, SchemaMessage(e));
      case Inserted(t) =>
        if t.assignedToId !in db.users || t.assignedById !in db.users {
          return Fail(500, ForeignKeyMessage);
        }
        db.tasks := db.tasks[freshId := t];
        r := Ok(201, t);
    }
  }

  // ---------------------------------------------------------------------
  // getTasks
  // ---------------------------------------------------------------------

  /** The `{ id, name }` of an associated account. */
  datatype UserRef = UserRef(id: Id, name: string)

  /** A listed task with its assignee and creator attached (null when the account is gone). */
  datatype TaskView = TaskView(task: Task, assignedUser: Option<UserRef>, creatorUser: Option<UserRef>)

  function RefOf(u: Option<User>): Option<UserRef> {
    match u
    case Some(v) => Some(UserRef(v.id, v.name))
    case None => None
  }

  /** Whether `requester` is shown task `t`. */
  predicate Sees(requester: User, t: Task) {
    AssignsTasks(requester.role) || t.assignedToId == requester.id
  }

  /** `getTasks`: admin and hod see every task; anyone else exactly the tasks assigned to them. */
  function GetTasks(db: Db, requester: User): (r: map<Id, TaskView>)
    reads db
    ensures forall k :: k in r ==> k in db.tasks
    ensures forall k :: k in db.tasks ==> (k in r <==> Sees(requester, db.tasks[k]))
    ensures AssignsTasks(requester.role) ==> r.Keys == db.tasks.Keys
    ensures !AssignsTasks(requester.role) ==>
      forall k :: k in r ==> r[k].task.assignedToId == requester.id
    ensures forall k :: k in r ==>
      && r[k].task == db.tasks[k]
      && r[k].assignedUser == RefOf(AssignedUser(db.tasks[k], db.users))
      && r[k].creatorUser == RefOf(CreatorUser(db.tasks[k], db.users))
  {
    map k | k in db.tasks && Sees(requester, db.tasks[k]) ::
      TaskView(db.tasks[k], RefOf(AssignedUser(db.tasks[k], db.users)),
               RefOf(CreatorUser(db.tasks[k], db.users)))
  }

  // ---------------------------------------------------------------------
  // updateTaskStatus
  // ---------------------------------------------------------------------

  /** The update body: a status string that may be falsy, and a progress that may be undefined. */
  datatype TaskUpdate = TaskUpdate(status: Option<string>, progress: Option<int>)

  /**
   * The two derivation rules applied after the explicit assignments, in order:
   * progress 100 forces 'Completed'; otherwise a 'Pending' task with progress
   * strictly between 0 and 100 becomes 'In Progress'. Every other status is
   * kept as given.
   */
  function DeriveStatus(status: string, progress: int): (r: string)
    ensures progress == 100 ==> r == "Completed"
    ensures 0 < progress < 100 && status == "Pending" ==> r == "In Progress"
    ensures progress != 100 && !(0 < progress < 100 && status == "Pending") ==> r == status
    ensures r == status || r == "Completed" || r == "In Progress"
  {
    var s1 := if progress == 100 && status != "Completed" then "Completed" else status;
    if progress > 0 && progress < 100 && s1 == "Pending" then "In Progress" else s1
  }

  /** The task as `updateTaskStatus` leaves it in memory before saving. */
  function ApplyUpdate(t: Task, u: TaskUpdate): (r: Task)
    ensures r.progress == (if u.progress.Some? then u.progress.value else t.progress)
    ensures r.status == DeriveStatus(Or(u.status, t.status), r.progress)
    ensures r.id == t.id && r.title == t.title && r.description == t.description
    ensures r.deadline == t.deadline
    ensures r.assignedToId == t.assignedToId && r.assignedById == t.assignedById
  {
    var status := if Truthy(u.status) then u.status.value else t.status;
    var progress := if u.progress.Some? then u.progress.value else t.progress;
    t.(status := DeriveStatus(status, progress), progress := progress)
  }

  const TaskNotFound: string := "Task not found"

  /**
   * `updateTaskStatus`: an unknown id gives 404; a progress below 0 or above
   * 100 fails the `min` or `max` validator on save (500, with the
   * validator's message) and nothing is stored; otherwise the
   * updated task replaces the old one. There is no role or ownership check.
   */
  method UpdateTaskStatus(db: Db, id: Id, u: TaskUpdate) returns (r: Reply<Task>)
    requires db.Valid()
    modifies db
    ensures db.Valid()
    ensures db.users == old(db.users) && db.leaves == old(db.leaves)
    ensures id !in old(db.tasks) ==> r == Fail(404, TaskNotFound) && db.tasks == old(db.tasks)
    ensures id in old(db.tasks) && ApplyUpdate(old(db.tasks)[id], u).progress < 0 ==>
      r == Fail(500, ValidatorMessage("min", "progress")) && db.tasks == old(db.tasks)
    ensures id in old(db.tasks) && ApplyUpdate(old(db.tasks)[id], u).progress > 100 ==>
      r == Fail(500, ValidatorMessage("max", "progress")) && db.tasks == old(db.tasks)
    ensures id in old(db.tasks) && ProgressValid(ApplyUpdate(old(db.tasks)[id], u).progress) ==>
      && r == Ok(200, ApplyUpdate(old(db.tasks)[id], u))
      && db.tasks == old(db.tasks)[id := r.body]
    ensures ReferencesResolve(old(db.users), old(db.tasks), old(db.leaves)) ==>
      ReferencesResolve(db.users, db.tasks, db.leaves)
  {
    if id !in db.tasks {
      return Fail(404, TaskNotFound);
    }
    var task := db.tasks[id];
    if Truthy(u.status) {
      task := task.(status := u.status.value);
    }
    if u.progress.Some? {
      task := task.(progress := u.progress.value);
    }
    if task.progress == 100 && task.status != "Completed" {
      task := task.(status := "Completed");
    }
    if task.progress > 0 && task.progress < 100 && task.status == "Pending" {
      task := task.(status := "In Progress");
    }
    if !ProgressValid(task.progress) {
      return Fail(500, ValidatorMessage(ProgressValidator(task.progress), "progress"));
    }
    db.tasks := db.tasks[id := task];
    r := Ok(200, task);
  }

  // ---------------------------------------------------------------------
  // Properties of the update rule
  // ---------------------------------------------------------------------

  /** Sending the same update twice leaves the task as sending it once. */
  lemma UpdateIdempotent(t: Task, u: TaskUpdate)
    ensures ApplyUpdate(ApplyUpdate(t, u), u) == ApplyUpdate(t, u)
  {
  }

  /** A progress of 0 is applied: `progress !== undefined` is the only test. */
  lemma ZeroProgressApplied(t: Task, status: Option<string>)
    ensures ApplyUpdate(t, TaskUpdate(status, Some(0))).progress == 0
  {
  }

  /** Without a status in the body, a Completed task stays Completed whatever progress is sent. */
  lemma CompletedStickyWithoutStatus(t: Task, u: TaskUpdate)
    requires t.status == "Completed" && !Truthy(u.status)
    ensures ApplyUpdate(t, u).status == "Completed"
  {
  }

  /** An explicit status does move a task out of Completed: status 'Pending' with progress 40 gives 'In Progress'. */
  lemma ExplicitStatusLeavesCompleted(t: Task)
    requires t.status == "Completed"
    ensures ApplyUpdate(t, TaskUpdate(Some("Pending"), Some(40))).status == "In Progress"
  {
  }

  /** 'Completed' with progress 40 stays 'Completed': status and progress can disagree. */
  lemma CompletedAtFortyKept(t: Task)
    ensures ApplyUpdate(t, TaskUpdate(Some("Completed"), Some(40))).status == "Completed"
  {
  }

  /** The declared status enum is closed under the update rule when the body sends no other string. */
  lemma UpdateKeepsStatusEnum(t: Task, u: TaskUpdate)
    requires IsTaskStatus(t.status)
    requires !Truthy(u.status) || IsTaskStatus(u.status.value)
    ensures IsTaskStatus(ApplyUpdate(t, u).status)
  {
  }
}
