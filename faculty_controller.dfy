/**
 * Self-service operations of any authenticated account
 * (backend/controllers/facultyController.js): the requester's own profile,
 * leave requests, and the staff directory. `requesterId` is the id of the
 * account the `protect` guard resolved.
 */
module FacultyController {
  import opened Wrappers
  import opened Models
  import opened Store
  import opened JsStrings

  // ---------------------------------------------------------------------
  // getProfile / updateProfile
  // ---------------------------------------------------------------------

  /** The profile reply: no password, no approval flag. */
  datatype Profile = Profile(
    id: Id, name: string, email: string, role: string,
    department: Option<string>, designation: Option<string>)

  function ProfileOf(u: User): Profile {
    Profile(u.id, u.name, u.email, u.role, u.department, u.designation)
  }

  const UserNotFound: string := "User not found"

  /** `getProfile`: the requester's own record, or 404 when it is gone. */
  function GetProfile(db: Db, requesterId: Id): (r: Reply<Profile>)
    reads db
    ensures r.Ok? <==> requesterId in db.users
    ensures r.Fail? ==> r == Fail(404, UserNotFound)
    ensures r.Ok? ==>
      var u := db.users[requesterId];
      && r.code == 200
      && r.body == Profile(u.id, u.name, u.email, u.role, u.department, u.designation)
  {
    if requesterId in db.users then Ok(200, ProfileOf(db.users[requesterId]))
    else Fail(404, UserNotFound)
  }

  datatype ProfileEdit = ProfileEdit(
    name: Option<string>, email: Option<string>, department: Option<string>,
    designation: Option<string>, password: Option<string>)

  /**
   * The edited account: the four profile fields keep their old value when the
   * new one is falsy; the password becomes `hashed` (the hash of the new one)
   * only when one is supplied; id, role and approval never change.
   */
  function ProfileEdited(u: User, edit: ProfileEdit, hashed: string): (r: User)
    ensures r.name == (if Truthy(edit.name) then edit.name.value else u.name)
    ensures r.email == (if Truthy(edit.email) then edit.email.value else u.email)
    ensures r.department == (if Truthy(edit.department) then edit.department else u.department)
    ensures r.designation == (if Truthy(edit.designation) then edit.designation else u.designation)
    ensures r.password == (if Truthy(edit.password) then hashed else u.password)
    ensures r.id == u.id && r.role == u.role && r.isApproved == u.isApproved
  {
    var v := u.(name := Or(edit.name, u.name), email := Or(edit.email, u.email),
                department := OrOpt(edit.department, u.department),
                designation := OrOpt(edit.designation, u.designation));
    if Truthy(edit.password) then v.(password := hashed) else v
  }

  /** `updateProfile`: only the requester's own record changes; 404 when it is gone. */
  method UpdateProfile(db: Db, requesterId: Id, edit: ProfileEdit, hashed: string) returns (r: Reply<Profile>)
    requires db.Valid()
    modifies db
    ensures db.Valid()
    ensures db.tasks == old(db.tasks) && db.leaves == old(db.leaves)
    ensures ReferencesResolve(old(db.users), old(db.tasks), old(db.leaves)) ==>
      ReferencesResolve(db.users, db.tasks, db.leaves)
    ensures requesterId !in old(db.users) ==> r == Fail(404, UserNotFound) && db.users == old(db.users)
    ensures requesterId in old(db.users) ==>
      var u := ProfileEdited(old(db.users)[requesterId], edit, hashed);
      && db.users == old(db.users)[requesterId := u]
      && r == Ok(200, ProfileOf(u))
    ensures AdminIds(db.users) == AdminIds(old(db.users))
    ensures ApprovedIds(db.users) == ApprovedIds(old(db.users))
  {
    if requesterId !in db.users {
      return Fail(404, UserNotFound);
    }
    var user := db.users[requesterId];
    user := user.(name := Or(edit.name, user.name));
    user := user.(email := Or(edit.email, user.email));
    user := user.(department := OrOpt(edit.department, user.department));
    user := user.(designation := OrOpt(edit.designation, user.designation));
    if Truthy(edit.password) {
      user := user.(password := hashed);
    }
    db.users := db.users[requesterId := user];
    r := Ok(200, ProfileOf(user));
  }

  // ---------------------------------------------------------------------
  // applyLeave / getMyLeaves
  // ---------------------------------------------------------------------

  datatype LeaveBody = LeaveBody(reason: Option<string>, startDate: Option<string>, endDate: Option<string>)

  function LeaveSchemaMessage(e: SchemaError): string {
    match e
    case NotNullViolation(f) => "notNull Violation: Leave." + f + " cannot be null"
    case RangeViolation(f, v) => ValidatorMessage(v, f)
  }

  /**
   * `applyLeave`: a Pending leave owned by the requester, with the dates as
   * given (no check that the end follows the start). A missing reason or
   * date fails in the ORM (500) and nothing is inserted; so does a requester
   * whose account is gone, through the foreign key on `userId`.
   */
  method ApplyLeave(db: Db, requesterId: Id, body: LeaveBody, freshId: Id) returns (r: Reply<Leave>)
    requires db.Valid() && freshId !in db.leaves
    modifies db
    ensures db.Valid()
    ensures db.users == old(db.users) && db.tasks == old(db.tasks)
    ensures ReferencesResolve(old(db.users), old(db.tasks), old(db.leaves)) ==>
      ReferencesResolve(db.users, db.tasks, db.leaves)
    ensures body.reason.None? || body.startDate.None? || body.endDate.None? ==>
      r.Fail? && r.code == 500 && db.leaves == old(db.leaves)
    ensures body.reason.Some? && body.startDate.Some? && body.endDate.Some? && requesterId !in old(db.users) ==>
      r == Fail(500, ForeignKeyMessage) && db.leaves == old(db.leaves)
    ensures body.reason.Some? && body.startDate.Some? && body.endDate.Some? && requesterId in old(db.users) ==>
      && r.Ok? && r.code == 201
      && r.body == Leave(freshId, body.reason.value, body.startDate.value, body.endDate.value,
                         "Pending", None, requesterId)
      && db.leaves == old(db.leaves)[freshId := r.body]
  {
    var created := CreateLeaveRecord(LeaveInput(freshId, body.reason, body.startDate, body.endDate,
                                                Some("Pending"), None, Some(requesterId)));
    match created {
      case Refused(e) =>
        r := Fail(500, LeaveSchemaMessage(e));
      case Inserted(l) =>
        if l.userId !in db.users {
          return Fail(500, ForeignKeyMessage);
        }
        db.leaves := db.leaves[freshId := l];
        r := Ok(201, l);
    }
  }

  /** `getMyLeaves`: exactly the leaves the requester owns. */
  function GetMyLeaves(db: Db, requesterId: Id): (r: map<Id, Leave>)
    reads db
    ensures forall k :: k in r ==> k in db.leaves && r[k] == db.leaves[k]
    ensures forall k :: k in db.leaves ==> (k in r <==> db.leaves[k].userId == requesterId)
  {
    map k | k in db.leaves && db.leaves[k].userId == requesterId :: db.leaves[k]
  }

  // ---------------------------------------------------------------------
  // getAllFaculty
  // ---------------------------------------------------------------------

  /** A directory entry: id, name, email, department and role only. */
  datatype DirectoryEntry = DirectoryEntry(
    id: Id, name: string, email: string, department: Option<string>, role: string)

  /** `getAllFaculty`: every account, admins included, projected to the directory columns. */
  function GetAllFaculty(db: Db): (r: map<Id, DirectoryEntry>)
    reads db
    ensures r.Keys == db.users.Keys
    ensures forall k :: k in r ==>
      var u := db.users[k];
      r[k] == DirectoryEntry(u.id, u.name, u.email, u.department, u.role)
    ensures AdminIds(db.users) <= r.Keys
  {
    map k | k in db.users ::
      DirectoryEntry(db.users[k].id, db.users[k].name, db.users[k].email,
                     db.users[k].department, db.users[k].role)
  }
}
