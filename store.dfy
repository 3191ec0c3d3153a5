/**
 * The three tables the controllers read and write, held as maps from
 * primary key to record, and the shape of a controller's reply (an HTTP
 * status code with a JSON body or an error message).
 */
module Store {
  import opened Wrappers
  import opened Models

  /** A controller's answer: a success status with its body, or an error status with its message. */
  datatype Reply<T> = Ok(code: int, body: T) | Fail(code: int, message: string)

  class Db {
    var users: map<Id, User>
    var tasks: map<Id, Task>
    var leaves: map<Id, Leave>

    /** Every record sits under its own primary key, and every stored progress passed its validator. */
    ghost predicate Valid()
      reads this
    {
      && UsersKeyed(users)
      && (forall k :: k in tasks ==> tasks[k].id == k && ProgressValid(tasks[k].progress))
      && (forall k :: k in leaves ==> leaves[k].id == k)
    }

    constructor ()
      ensures Valid()
      ensures users == map[] && tasks == map[] && leaves == map[]
    {
      users, tasks, leaves := map[], map[], map[];
    }
  }

  predicate UsersKeyed(users: map<Id, User>) {
    forall k :: k in users ==> users[k].id == k
  }

  /** `User.findOne({ where: { email } })` finds a row. */
  predicate EmailTaken(users: map<Id, User>, email: string) {
    exists k :: k in users && users[k].email == email
  }

  /** No two accounts share an email address. */
  predicate EmailsUnique(users: map<Id, User>) {
    forall j, k :: j in users && k in users && users[j].email == users[k].email ==> j == k
  }

  /**
   * The foreign keys hold: every task's assignee and creator and every
   * leave's owner is a stored account. The `User.hasMany` associations on
   * these non-null columns make SQLite reject an insert that breaks this and
   * cascade a user's deletion to the rows that refer to it.
   */
  predicate ReferencesResolve(users: map<Id, User>, tasks: map<Id, Task>, leaves: map<Id, Leave>) {
    && (forall k :: k in tasks ==> tasks[k].assignedToId in users && tasks[k].assignedById in users)
    && (forall k :: k in leaves ==> leaves[k].userId in users)
  }

  /** The error SQLite reports for an insert whose foreign key names no row. */
  const ForeignKeyMessage: string := "SQLITE_CONSTRAINT: FOREIGN KEY constraint failed"

  /** The accounts whose role is 'admin'. */
  function AdminIds(users: map<Id, User>): set<Id> {
    set k | k in users && users[k].role == "admin"
  }

  /** The accounts whose approval flag is set (the ones that can log in). */
  function ApprovedIds(users: map<Id, User>): set<Id> {
    set k | k in users && users[k].isApproved
  }
}
