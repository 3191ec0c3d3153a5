/**
 * The offline orphan-reference audit (backend/audit_db.js) over the three
 * exported JSON collections. Reading the files is not modelled: the method
 * takes the parsed records, each field a JSON value, `Undefined` when the key
 * is absent. The set of user ids is a set of such values, so a user without
 * `_id` puts `undefined` into it and a user with `"_id": null` puts `null`,
 * and the two stay apart, as they do for `new Set` and `Set.has`.
 */
module AuditDb {
  import opened Json

  datatype RawUser = RawUser(_id: JsValue, role: JsValue, email: JsValue)
  datatype RawTask = RawTask(_id: JsValue, assignedTo: JsValue, assignedBy: JsValue)
  datatype RawLeave = RawLeave(_id: JsValue, user: JsValue)

  /** One line of the audit's console output. */
  datatype LogLine =
    | Started
    | Counts(users: nat, tasks: nat, leaves: nat)
    | MissingRole(user: JsValue)
    | MissingEmail(user: JsValue)
    | UnknownAssignee(task: JsValue, assignedTo: JsValue)
    | UnknownCreator(task: JsValue, assignedBy: JsValue)
    | TasksPass
    | UnknownOwner(leave: JsValue, user: JsValue)
    | LeavesPass
    | Complete

  datatype AuditReport = AuditReport(log: seq<LogLine>, taskIssues: nat, leaveIssues: nat)

  // ---------------------------------------------------------------------
  // Specification of the three passes, one record at a time
  // ---------------------------------------------------------------------

  /** `new Set(users.map(u => u._id))`. */
  function UserIds(users: seq<RawUser>): set<JsValue> {
    set i | 0 <= i < |users| :: users[i]._id
  }

  function UserLines(u: RawUser): seq<LogLine> {
    (if !JsTruthy(u.role) then [MissingRole(u._id)] else [])
      + (if !JsTruthy(u.email) then [MissingEmail(u._id)] else [])
  }

  function AllUserLines(users: seq<RawUser>): seq<LogLine>
    decreases |users|
  {
    if users == [] then [] else AllUserLines(users[..|users| - 1]) + UserLines(users[|users| - 1])
  }

  /** A reference the task pass flags: truthy and not a known user id. */
  predicate Dangling(ref: JsValue, ids: set<JsValue>) {
    JsTruthy(ref) && ref !in ids
  }

  function TaskLines(t: RawTask, ids: set<JsValue>): seq<LogLine> {
    (if Dangling(t.assignedTo, ids) then [UnknownAssignee(t._id, t.assignedTo)] else [])
      + (if Dangling(t.assignedBy, ids) then [UnknownCreator(t._id, t.assignedBy)] else [])
  }

  /** The issues one task contributes: 0, 1 or 2. */
  function TaskFlags(t: RawTask, ids: set<JsValue>): (r: nat)
    ensures r <= 2
    ensures r == |TaskLines(t, ids)|
  {
    (if Dangling(t.assignedTo, ids) then 1 else 0) + (if Dangling(t.assignedBy, ids) then 1 else 0)
  }

  function AllTaskLines(tasks: seq<RawTask>, ids: set<JsValue>): seq<LogLine>
    decreases |tasks|
  {
    if tasks == [] then [] else AllTaskLines(tasks[..|tasks| - 1], ids) + TaskLines(tasks[|tasks| - 1], ids)
  }

  function TaskIssues(tasks: seq<RawTask>, ids: set<JsValue>): nat
    decreases |tasks|
  {
    if tasks == [] then 0 else TaskIssues(tasks[..|tasks| - 1], ids) + TaskFlags(tasks[|tasks| - 1], ids)
  }

  /** The leave pass has no truthiness guard: every owner reference is looked up. */
  function LeaveLines(l: RawLeave, ids: set<JsValue>): seq<LogLine> {
    if l.user !in ids then [UnknownOwner(l._id, l.user)] else []
  }

  function AllLeaveLines(leaves: seq<RawLeave>, ids: set<JsValue>): seq<LogLine>
    decreases |leaves|
  {
    if leaves == [] then [] else AllLeaveLines(leaves[..|leaves| - 1], ids) + LeaveLines(leaves[|leaves| - 1], ids)
  }

  function LeaveIssues(leaves: seq<RawLeave>, ids: set<JsValue>): nat
    decreases |leaves|
  {
    if leaves == [] then 0
    else LeaveIssues(leaves[..|leaves| - 1], ids) + (if leaves[|leaves| - 1].user !in ids then 1 else 0)
  }

  /** The whole console output, in order. */
  function AuditLog(users: seq<RawUser>, tasks: seq<RawTask>, leaves: seq<RawLeave>): seq<LogLine> {
    var ids := UserIds(users);
    [Started, Counts(|users|, |tasks|, |leaves|)]
      + AllUserLines(users)
      + AllTaskLines(tasks, ids)
      + (if TaskIssues(tasks, ids) == 0 then [TasksPass] else [])
      + AllLeaveLines(leaves, ids)
      + (if LeaveIssues(leaves, ids) == 0 then [LeavesPass] else [])
      + [Complete]
  }

  // ---------------------------------------------------------------------
  // The audit itself
  // ---------------------------------------------------------------------

  /** `new Set(users.map(u => u._id))`, built one user at a time. */
  method CollectIds(users: seq<RawUser>) returns (ids: set<JsValue>)
    ensures ids == UserIds(users)
  {
    ids := {};
    var i := 0;
    while i < |users|
      invariant 0 <= i <= |users|
      invariant ids == UserIds(users[..i])
    {
      ids := ids + {users[i]._id};
      assert users[..i + 1] == users[..i] + [users[i]];
      i := i + 1;
    }
    assert users[..|users|] == users;
  }

  /** The user pass: a missing role, then a missing email, for each user in order. */
  method CheckUsers(users: seq<RawUser>) returns (lines: seq<LogLine>)
    ensures lines == AllUserLines(users)
  {
    lines := [];
    var i := 0;
    while i < |users|
      invariant 0 <= i <= |users|
      invariant lines == AllUserLines(users[..i])
    {
      var u := users[i];
      if !JsTruthy(u.role) {
        lines := lines + [MissingRole(u._id)];
      }
      if !JsTruthy(u.email) {
        lines := lines + [MissingEmail(u._id)];
      }
      assert users[..i + 1][..i] == users[..i];
      i := i + 1;
    }
    assert users[..|users|] == users;
  }

  /** The task pass: each truthy reference that names no user is logged and counted. */
  method CheckTasks(tasks: seq<RawTask>, ids: set<JsValue>) returns (lines: seq<LogLine>, taskIssues: nat)
    ensures lines == AllTaskLines(tasks, ids)
    ensures taskIssues == TaskIssues(tasks, ids)
  {
    lines := [];
    taskIssues := 0;
    var i := 0;
    while i < |tasks|
      invariant 0 <= i <= |tasks|
      invariant taskIssues == TaskIssues(tasks[..i], ids)
      invariant lines == AllTaskLines(tasks[..i], ids)
    {
      var t := tasks[i];
      if JsTruthy(t.assignedTo) && t.assignedTo !in ids {
        lines := lines + [UnknownAssignee(t._id, t.assignedTo)];
        taskIssues := taskIssues + 1;
      }
      if JsTruthy(t.assignedBy) && t.assignedBy !in ids {
        lines := lines + [UnknownCreator(t._id, t.assignedBy)];
        taskIssues := taskIssues + 1;
      }
      assert tasks[..i + 1][..i] == tasks[..i];
      i := i + 1;
    }
    assert tasks[..|tasks|] == tasks;
  }

  /** The leave pass: every owner reference not in the set is logged and counted. */
  method CheckLeaves(leaves: seq<RawLeave>, ids: set<JsValue>) returns (lines: seq<LogLine>, leaveIssues: nat)
    ensures lines == AllLeaveLines(leaves, ids)
    ensures leaveIssues == LeaveIssues(leaves, ids)
  {
    lines := [];
    leaveIssues := 0;
    var i := 0;
    while i < |leaves|
      invariant 0 <= i <= |leaves|
      invariant leaveIssues == LeaveIssues(leaves[..i], ids)
      invariant lines == AllLeaveLines(leaves[..i], ids)
    {
      var l := leaves[i];
      if l.user !in ids {
        lines := lines + [UnknownOwner(l._id, l.user)];
        leaveIssues := leaveIssues + 1;
      }
      assert leaves[..i + 1][..i] == leaves[..i];
      i := i + 1;
    }
    assert leaves[..|leaves|] == leaves;
  }

  /** The script: the three passes in order, each PASS line printed only when its counter is 0. */
  method Audit(users: seq<RawUser>, tasks: seq<RawTask>, leaves: seq<RawLeave>) returns (report: AuditReport)
    ensures report.taskIssues == TaskIssues(tasks, UserIds(users))
    ensures report.leaveIssues == LeaveIssues(leaves, UserIds(users))
    ensures report.log == AuditLog(users, tasks, leaves)
  {
    var log := [Started, Counts(|users|, |tasks|, |leaves|)];
    var ids := CollectIds(users);
    var userLines := CheckUsers(users);
    log := log + userLines;
    var taskLines, taskIssues := CheckTasks(tasks, ids);
    log := log + taskLines;
    if taskIssues == 0 {
      log := log + [TasksPass];
    }
    var leaveLines, leaveIssues := CheckLeaves(leaves, ids);
    log := log + leaveLines;
    if leaveIssues == 0 {
      log := log + [LeavesPass];
    }
    log := log + [Complete];
    report := AuditReport(log, taskIssues, leaveIssues);
  }

  // ---------------------------------------------------------------------
  // Properties of the audit
  // ---------------------------------------------------------------------

  /** The PASS line for tasks is printed exactly when no task issue was counted; likewise for leaves. */
  lemma PassLinesIff(users: seq<RawUser>, tasks: seq<RawTask>, leaves: seq<RawLeave>)
    ensures TasksPass in AuditLog(users, tasks, leaves) <==> TaskIssues(tasks, UserIds(users)) == 0
    ensures LeavesPass in AuditLog(users, tasks, leaves) <==> LeaveIssues(leaves, UserIds(users)) == 0
  {
    TaskLinesKinds(tasks, UserIds(users));
    LeaveLinesKinds(leaves, UserIds(users));
    UserLinesKinds(users);
  }

  lemma {:induction false} UserLinesKinds(users: seq<RawUser>)
    ensures forall l :: l in AllUserLines(users) ==> l.MissingRole? || l.MissingEmail?
    decreases |users|
  {
    if users != [] {
      UserLinesKinds(users[..|users| - 1]);
    }
  }

  lemma {:induction false} TaskLinesKinds(tasks: seq<RawTask>, ids: set<JsValue>)
    ensures forall l :: l in AllTaskLines(tasks, ids) ==> l.UnknownAssignee? || l.UnknownCreator?
    decreases |tasks|
  {
    if tasks != [] {
      TaskLinesKinds(tasks[..|tasks| - 1], ids);
    }
  }

  lemma {:induction false} LeaveLinesKinds(leaves: seq<RawLeave>, ids: set<JsValue>)
    ensures forall l :: l in AllLeaveLines(leaves, ids) ==> l.UnknownOwner?
    decreases |leaves|
  {
    if leaves != [] {
      LeaveLinesKinds(leaves[..|leaves| - 1], ids);
    }
  }

  /** Each task is flagged at most twice and each leave at most once. */
  lemma {:induction false} IssueBounds(tasks: seq<RawTask>, leaves: seq<RawLeave>, ids: set<JsValue>)
    ensures TaskIssues(tasks, ids) <= 2 * |tasks|
    ensures LeaveIssues(leaves, ids) <= |leaves|
  {
    TaskIssuesBound(tasks, ids);
    LeaveIssuesBound(leaves, ids);
  }

  lemma {:induction false} TaskIssuesBound(tasks: seq<RawTask>, ids: set<JsValue>)
    ensures TaskIssues(tasks, ids) <= 2 * |tasks|
    decreases |tasks|
  {
    if tasks != [] {
      TaskIssuesBound(tasks[..|tasks| - 1], ids);
    }
  }

  lemma {:induction false} LeaveIssuesBound(leaves: seq<RawLeave>, ids: set<JsValue>)
    ensures LeaveIssues(leaves, ids) <= |leaves|
    decreases |leaves|
  {
    if leaves != [] {
      LeaveIssuesBound(leaves[..|leaves| - 1], ids);
    }
  }

  /** The counter counts exactly the logged task errors. */
  lemma {:induction false} TaskIssuesCountLines(tasks: seq<RawTask>, ids: set<JsValue>)
    ensures TaskIssues(tasks, ids) == |AllTaskLines(tasks, ids)|
    decreases |tasks|
  {
    if tasks != [] {
      TaskIssuesCountLines(tasks[..|tasks| - 1], ids);
    }
  }

  /** The task counter is zero exactly when every truthy reference of every task names a user. */
  lemma {:induction false} NoTaskIssuesIff(tasks: seq<RawTask>, ids: set<JsValue>)
    ensures TaskIssues(tasks, ids) == 0 <==>
      forall i :: 0 <= i < |tasks| ==> !Dangling(tasks[i].assignedTo, ids) && !Dangling(tasks[i].assignedBy, ids)
    decreases |tasks|
  {
    if tasks != [] {
      var init := tasks[..|tasks| - 1];
      NoTaskIssuesIff(init, ids);
      assert forall i :: 0 <= i < |init| ==> init[i] == tasks[i];
    }
  }

  /** The leave counter is zero exactly when every leave's owner reference is in the id set. */
  lemma {:induction false} NoLeaveIssuesIff(leaves: seq<RawLeave>, ids: set<JsValue>)
    ensures LeaveIssues(leaves, ids) == 0 <==> forall i :: 0 <= i < |leaves| ==> leaves[i].user in ids
    decreases |leaves|
  {
    if leaves != [] {
      var init := leaves[..|leaves| - 1];
      NoLeaveIssuesIff(init, ids);
      assert forall i :: 0 <= i < |init| ==> init[i] == leaves[i];
    }
  }

  /** A task whose assignee and creator are both falsy (missing, null, empty, 0 or false) is never flagged. */
  lemma UnsetReferencesNotFlagged(tasks: seq<RawTask>, t: RawTask, ids: set<JsValue>)
    requires !JsTruthy(t.assignedTo) && !JsTruthy(t.assignedBy)
    ensures TaskIssues(tasks + [t], ids) == TaskIssues(tasks, ids)
  {
    assert (tasks + [t])[..|tasks|] == tasks;
  }

  /** A leave is flagged exactly when no user's `_id` is the very value of its owner field. */
  lemma LeaveFlaggedIff(users: seq<RawUser>, leaves: seq<RawLeave>, l: RawLeave)
    ensures LeaveIssues(leaves + [l], UserIds(users)) ==
      LeaveIssues(leaves, UserIds(users)) + (if exists i :: 0 <= i < |users| && users[i]._id == l.user then 0 else 1)
  {
    assert (leaves + [l])[..|leaves|] == leaves;
    if exists i :: 0 <= i < |users| && users[i]._id == l.user {
      var i :| 0 <= i < |users| && users[i]._id == l.user;
      assert users[i]._id in UserIds(users);
    }
  }

  /**
   * A leave without a `user` key is flagged, unless some user also lacks an
   * `_id`: then the set holds `undefined` and the leave passes.
   */
  lemma OwnerlessLeave(users: seq<RawUser>, leaves: seq<RawLeave>, l: RawLeave)
    requires l.user == Undefined
    ensures LeaveIssues(leaves + [l], UserIds(users)) ==
      LeaveIssues(leaves, UserIds(users)) + (if exists i :: 0 <= i < |users| && users[i]._id == Undefined then 0 else 1)
  {
    LeaveFlaggedIff(users, leaves, l);
  }

  /**
   * A leave whose `user` is `null` is flagged even when some user lacks an
   * `_id`: `null` is not `undefined` for `Set.has`.
   */
  lemma NullOwnerFlagged(users: seq<RawUser>, leaves: seq<RawLeave>, l: RawLeave)
    requires l.user == Null
    requires forall i :: 0 <= i < |users| ==> users[i]._id != Null
    ensures LeaveIssues(leaves + [l], UserIds(users)) == LeaveIssues(leaves, UserIds(users)) + 1
  {
    LeaveFlaggedIff(users, leaves, l);
  }
}
