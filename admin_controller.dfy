/**
 * Account administration and leave review
 * (backend/controllers/adminController.js); the PDF report is not modelled.
 * The routes that reach these operations are all behind the `protect` and
 * `admin` guards (see module Routes).
 */
module AdminController {
  import opened Wrappers
  import opened Models
  import opened Store
  import opened JsStrings

  // ---------------------------------------------------------------------
  // getUsers
  // ---------------------------------------------------------------------

  /** A user row with the password column excluded. */
  datatype UserView = UserView(
    id: Id, name: string, email: string, role: string,
    department: Option<string>, designation: Option<string>, isApproved: bool)

  function ViewOf(u: User): UserView {
    UserView(u.id, u.name, u.email, u.role, u.department, u.designation, u.isApproved)
  }

  /** `getUsers`: every account, each without its password. */
  function GetUsers(db: Db): (r: map<Id, UserView>)
    reads db
    ensures r.Keys == db.users.Keys
    ensures forall k :: k in r ==>
      && r[k].id == db.users[k].id && r[k].name == db.users[k].name
      && r[k].email == db.users[k].email && r[k].role == db.users[k].role
      && r[k].department == db.users[k].department
      && r[k].designation == db.users[k].designation
      && r[k].isApproved == db.users[k].isApproved
  {
    map k | k in db.users :: ViewOf(db.users[k])
  }

  // ---------------------------------------------------------------------
  // createUser
  // ---------------------------------------------------------------------

  datatype CreateUserBody = CreateUserBody(
    name: string, email: string, password: string, role: Option<string>,
    department: Option<string>, designation: Option<string>)

  /**
   * The column defaults of the user schema, which is not part of this model:
   * `createUser` leaves `isApproved` (and an absent role) to them.
   */
  datatype UserDefaults = UserDefaults(role: string, isApproved: bool)

  /** The reply of `createUser`: no password. */
  datatype CreatedUser = CreatedUser(id: Id, name: string, email: string, role: string)

  const UserExistsMessage: string := "User already exists"

  /** The row `createUser` inserts: the role exactly as given ('admin' included). */
  function AdminCreated(id: Id, body: CreateUserBody, hashed: string, defaults: UserDefaults): (u: User)
    ensures u.id == id && u.name == body.name && u.email == body.email && u.password == hashed
    ensures body.role.Some? ==> u.role == body.role.value
    ensures body.role.None? ==> u.role == defaults.role
    ensures u.department == body.department && u.designation == body.designation
    ensures u.isApproved == defaults.isApproved
  {
    User(id, body.name, body.email, hashed, body.role.GetOr(defaults.role),
         body.department, body.designation, defaults.isApproved)
  }

  /** `createUser`: a taken email gives 400 and inserts nothing; otherwise the account is inserted and echoed without its password. */
  method CreateUser(db: Db, body: CreateUserBody, freshId: Id, hashed: string, defaults: UserDefaults)
    returns (r: Reply<CreatedUser>)
    requires db.Valid() && freshId !in db.users
    modifies db
    ensures db.Valid()
    ensures db.tasks == old(db.tasks) && db.leaves == old(db.leaves)
    ensures ReferencesResolve(old(db.users), old(db.tasks), old(db.leaves)) ==>
      ReferencesResolve(db.users, db.tasks, db.leaves)
    ensures EmailTaken(old(db.users), body.email) ==>
      r == Fail(400, UserExistsMessage) && db.users == old(db.users)
    ensures !EmailTaken(old(db.users), body.email) ==>
      var u := AdminCreated(freshId, body, hashed, defaults);
      && db.users == old(db.users)[freshId := u]
      && r == Ok(201, CreatedUser(freshId, body.name, body.email, u.role))
  {
    if EmailTaken(db.users, body.email) {
      return Fail(400, UserExistsMessage);
    }
    var u := AdminCreated(freshId, body, hashed, defaults);
    db.users := db.users[freshId := u];
    r := Ok(201, CreatedUser(u.id, u.name, u.email, u.role));
  }

  // ---------------------------------------------------------------------
  // getAllLeaves
  // ---------------------------------------------------------------------

  /** The `{ id, name, email }` of a leave's owner. */
  datatype Owner = Owner(id: Id, name: string, email: string)

  /** A leave with its owner attached (null when the owner is gone). */
  datatype LeaveView = LeaveView(leave: Leave, user: Option<Owner>)

  function OwnerOf(u: Option<User>): Option<Owner> {
    match u
    case Some(v) => Some(Owner(v.id, v.name, v.email))
    case None => None
  }

  function ViewOfLeave(l: Leave, users: map<Id, User>): LeaveView {
    LeaveView(l, OwnerOf(LeaveOwner(l, users)))
  }

  /** `getAllLeaves`: every leave, joined with its owner's id, name and email. */
  function GetAllLeaves(db: Db): (r: map<Id, LeaveView>)
    reads db
    ensures r.Keys == db.leaves.Keys
    ensures forall k :: k in r ==> r[k].leave == db.leaves[k]
    ensures forall k :: k in r ==> (r[k].user.Some? <==> db.leaves[k].userId in db.users)
    ensures forall k :: k in r && r[k].user.Some? ==>
      var o := db.users[db.leaves[k].userId];
      r[k].user.value == Owner(o.id, o.name, o.email)
  {
    map k | k in db.leaves :: ViewOfLeave(db.leaves[k], db.users)
  }

  // ---------------------------------------------------------------------
  // updateLeaveStatus
  // ---------------------------------------------------------------------

  datatype LeaveReview = LeaveReview(status: Option<string>, adminComment: Option<string>)

  const LeaveNotFound: string := "Leave not found"

  /** The reviewed leave: status and comment each replaced only by a truthy value; nothing else changes. */
  function Reviewed(l: Leave, review: LeaveReview): (r: Leave)
    ensures r.status == (if Truthy(review.status) then review.status.value else l.status)
    ensures r.adminComment == (if Truthy(review.adminComment) then review.adminComment else l.adminComment)
    ensures r.id == l.id && r.reason == l.reason && r.userId == l.userId
    ensures r.startDate == l.startDate && r.endDate == l.endDate
  {
    l.(status := Or(review.status, l.status), adminComment := OrOpt(review.adminComment, l.adminComment))
  }

  /** `updateLeaveStatus`: an unknown id gives 404; otherwise the reviewed leave is stored and returned with its owner. */
  method UpdateLeaveStatus(db: Db, id: Id, review: LeaveReview) returns (r: Reply<LeaveView>)
    requires db.Valid()
    modifies db
    ensures db.Valid()
    ensures db.users == old(db.users) && db.tasks == old(db.tasks)
    ensures ReferencesResolve(old(db.users), old(db.tasks), old(db.leaves)) ==>
      ReferencesResolve(db.users, db.tasks, db.leaves)
    ensures id !in old(db.leaves) ==> r == Fail(404, LeaveNotFound) && db.leaves == old(db.leaves)
    ensures id in old(db.leaves) ==>
      && db.leaves == old(db.leaves)[id := Reviewed(old(db.leaves)[id], review)]
      && r == Ok(200, ViewOfLeave(db.leaves[id], db.users))
  {
    if id !in db.leaves {
      return Fail(404, LeaveNotFound);
    }
    var leave := db.leaves[id];
    leave := leave.(status := Or(review.status, leave.status));
    leave := leave.(adminComment := OrOpt(review.adminComment, leave.adminComment));
    db.leaves := db.leaves[id := leave];
    r := Ok(200, ViewOfLeave(leave, db.users));
  }

  /** There is no guard on the current status: an Approved leave can be overwritten to Rejected. */
  lemma DecidedLeaveCanBeOverwritten(l: Leave, comment: Option<string>)
    requires l.status == "Approved"
    ensures Reviewed(l, LeaveReview(Some("Rejected"), comment)).status == "Rejected"
  {
  }

  /** An empty comment keeps the old one. */
  lemma EmptyCommentKeepsOld(l: Leave, status: Option<string>)
    ensures Reviewed(l, LeaveReview(status, Some(""))).adminComment == l.adminComment
  {
  }

  /** Reviewing twice with the same body is the same as reviewing once. */
  lemma ReviewIdempotent(l: Leave, review: LeaveReview)
    ensures Reviewed(Reviewed(l, review), review) == Reviewed(l, review)
  {
  }

  // ---------------------------------------------------------------------
  // updateUser
  // ---------------------------------------------------------------------

  datatype UserEdit = UserEdit(name: Option<string>, email: Option<string>, department: Option<string>)

  /** The reply of `updateUser`. */
  datatype UserSummary = UserSummary(id: Id, name: string, email: string, role: string, department: Option<string>)

  const UserNotFound: string := "User not found"

  /** Name, email and department each keep the old value when the new one is falsy; nothing else changes. */
  function AdminEdited(u: User, edit: UserEdit): (r: User)
    ensures r.name == (if Truthy(edit.name) then edit.name.value else u.name)
    ensures r.email == (if Truthy(edit.email) then edit.email.value else u.email)
    ensures r.department == (if Truthy(edit.department) then edit.department else u.department)
    ensures r.id == u.id && r.password == u.password && r.role == u.role
    ensures r.designation == u.designation && r.isApproved == u.isApproved
  {
    u.(name := Or(edit.name, u.name), email := Or(edit.email, u.email),
       department := OrOpt(edit.department, u.department))
  }

  /** `updateUser`: an unknown id gives 404; otherwise the edited account is stored. */
  method UpdateUser(db: Db, id: Id, edit: UserEdit) returns (r: Reply<UserSummary>)
    requires db.Valid()
    modifies db
    ensures db.Valid()
    ensures db.tasks == old(db.tasks) && db.leaves == old(db.leaves)
    ensures ReferencesResolve(old(db.users), old(db.tasks), old(db.leaves)) ==>
      ReferencesResolve(db.users, db.tasks, db.leaves)
    ensures id !in old(db.users) ==> r == Fail(404, UserNotFound) && db.users == old(db.users)
    ensures id in old(db.users) ==>
      var u := AdminEdited(old(db.users)[id], edit);
      && db.users == old(db.users)[id := u]
      && r == Ok(200, UserSummary(u.id, u.name, u.email, u.role, u.department))
    ensures AdminIds(db.users) == AdminIds(old(db.users))
    ensures ApprovedIds(db.users) == ApprovedIds(old(db.users))
  {
    if id !in db.users {
      return Fail(404, UserNotFound);
    }
    var user := db.users[id];
    user := user.(name := Or(edit.name, user.name));
    user := user.(email := Or(edit.email, user.email));
    user := user.(department := OrOpt(edit.department, user.department));
    db.users := db.users[id := user];
    r := Ok(200, UserSummary(user.id, user.name, user.email, user.role, user.department));
  }

  /** Nothing checks that an edited email is free: an edit can give two accounts the same address. */
  lemma EditCanDuplicateEmail(users: map<Id, User>, a: Id, b: Id)
    requires a in users && b in users && a != b && users[b].email != ""
    ensures !EmailsUnique(users[a := AdminEdited(users[a], UserEdit(None, Some(users[b].email), None))])
  {
    var edited := users[a := AdminEdited(users[a], UserEdit(None, Some(users[b].email), None))];
    assert edited[a].email == edited[b].email;
  }

  // ---------------------------------------------------------------------
  // deleteUser
  // ---------------------------------------------------------------------

  const UserRemoved: string := "User removed"

  /** The tasks that survive deleting account `id`: those it neither is assigned nor created. */
  function TasksWithout(tasks: map<Id, Task>, id: Id): (r: map<Id, Task>)
    ensures forall k :: k in r ==> k in tasks && r[k] == tasks[k]
    ensures forall k :: k in tasks ==>
      (k in r <==> tasks[k].assignedToId != id && tasks[k].assignedById != id)
  {
    map k | k in tasks && tasks[k].assignedToId != id && tasks[k].assignedById != id :: tasks[k]
  }

  /** The leaves that survive deleting account `id`: those it does not own. */
  function LeavesWithout(leaves: map<Id, Leave>, id: Id): (r: map<Id, Leave>)
    ensures forall k :: k in r ==> k in leaves && r[k] == leaves[k]
    ensures forall k :: k in leaves ==> (k in r <==> leaves[k].userId != id)
  {
    map k | k in leaves && leaves[k].userId != id :: leaves[k]
  }

  /**
   * `deleteUser`: an unknown id gives 404; otherwise the account goes, and the
   * foreign keys' `ON DELETE CASCADE` removes every task it is assigned or
   * created and every leave it owns. Nothing else changes.
   */
  method DeleteUser(db: Db, id: Id) returns (r: Reply<string>)
    requires db.Valid()
    modifies db
    ensures db.Valid()
    ensures id !in old(db.users) ==>
      r == Fail(404, UserNotFound) && db.users == old(db.users)
      && db.tasks == old(db.tasks) && db.leaves == old(db.leaves)
    ensures id in old(db.users) ==>
      && r == Ok(200, UserRemoved)
      && db.users == old(db.users) - {id}
      && db.tasks == TasksWithout(old(db.tasks), id)
      && db.leaves == LeavesWithout(old(db.leaves), id)
    ensures ReferencesResolve(old(db.users), old(db.tasks), old(db.leaves)) ==>
      ReferencesResolve(db.users, db.tasks, db.leaves)
  {
    if id !in db.users {
      return Fail(404, UserNotFound);
    }
    if ReferencesResolve(db.users, db.tasks, db.leaves) {
      DeletionKeepsReferences(db.users, db.tasks, db.leaves, id);
    }
    db.users := db.users - {id};
    db.tasks := TasksWithout(db.tasks, id);
    db.leaves := LeavesWithout(db.leaves, id);
    r := Ok(200, UserRemoved);
  }

  /** The cascade leaves the foreign keys intact: no surviving row refers to the removed account. */
  lemma DeletionKeepsReferences(users: map<Id, User>, tasks: map<Id, Task>, leaves: map<Id, Leave>, id: Id)
    requires ReferencesResolve(users, tasks, leaves)
    ensures ReferencesResolve(users - {id}, TasksWithout(tasks, id), LeavesWithout(leaves, id))
  {
  }

  /** A task the removed account neither holds nor created survives the cascade unchanged, with its associations. */
  lemma UnrelatedTaskSurvives(users: map<Id, User>, tasks: map<Id, Task>, id: Id, k: Id)
    requires k in tasks && tasks[k].assignedToId != id && tasks[k].assignedById != id
    ensures k in TasksWithout(tasks, id) && TasksWithout(tasks, id)[k] == tasks[k]
    ensures AssignedUser(tasks[k], users - {id}) == AssignedUser(tasks[k], users)
    ensures CreatorUser(tasks[k], users - {id}) == CreatorUser(tasks[k], users)
  {
  }
}
