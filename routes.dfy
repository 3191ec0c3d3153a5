/**
 * The three guarded route tables (backend/routes/adminRoutes.js,
 * taskRoutes.js and facultyRoutes.js) and how a request passes through a
 * router: the router-level guards run first, for every request that enters
 * the router, and only then is the route looked up. A request path is given
 * as its segments below the mount point (`/users/42` is ["users", "42"]);
 * a pattern segment starting with ':' matches any non-empty segment.
 */
module Routes {
  import opened Wrappers
  import opened Models
  import opened AuthMiddleware

  datatype Verb = GET | POST | PUT | DELETE

  datatype Handler =
    | GetUsers | CreateUser | UpdateUser | DeleteUser
    | GetAllLeaves | UpdateLeaveStatus | GenerateReport
    | GetProfile | UpdateProfile | ApplyLeave | GetMyLeaves | GetAllFaculty | GenerateFacultyReport
    | GetTasks | CreateTask | UpdateTaskStatus

  datatype Guard = ProtectGuard | AdminGuard

  datatype Route = Route(verb: Verb, pattern: seq<string>, handler: Handler)

  /** A router: where it is mounted, the guards it applies to every request, its routes in order. */
  datatype Router = Router(mount: string, guards: seq<Guard>, routes: seq<Route>)

  /** adminRoutes.js: `protect` then `admin` on everything. */
  const AdminRouter: Router := Router("/api/admin", [ProtectGuard, AdminGuard], [
    Route(GET, ["users"], GetUsers),
    Route(POST, ["users"], CreateUser),
    Route(PUT, ["users", ":id"], UpdateUser),
    Route(DELETE, ["users", ":id"], DeleteUser),
    Route(GET, ["leaves"], GetAllLeaves),
    Route(PUT, ["leaves", ":id"], UpdateLeaveStatus),
    Route(POST, ["reports"], GenerateReport)])

  /** taskRoutes.js: `protect` only (the imported `admin` is never applied). */
  const TaskRouter: Router := Router("/api/tasks", [ProtectGuard], [
    Route(GET, [], GetTasks),
    Route(POST, [], CreateTask),
    Route(PUT, [":id"], UpdateTaskStatus)])

  /** facultyRoutes.js: `protect` only. */
  const FacultyRouter: Router := Router("/api/faculty", [ProtectGuard], [
    Route(GET, ["profile"], GetProfile),
    Route(PUT, ["profile"], UpdateProfile),
    Route(POST, ["leave"], ApplyLeave),
    Route(GET, ["leaves"], GetMyLeaves),
    Route(GET, ["all"], GetAllFaculty),
    Route(GET, ["reports", ":userId"], GenerateFacultyReport)])

  predicate SegmentMatches(pattern: string, segment: string) {
    if |pattern| > 0 && pattern[0] == ':' then segment != "" else pattern == segment
  }

  predicate PathMatches(pattern: seq<string>, path: seq<string>) {
    |pattern| == |path| && forall i :: 0 <= i < |path| ==> SegmentMatches(pattern[i], path[i])
  }

  /** A route answers a request when its verb is the request's and its pattern matches the path. */
  predicate Answers(route: Route, verb: Verb, path: seq<string>) {
    route.verb == verb && PathMatches(route.pattern, path)
  }

  /** The handler of the first route with this verb whose pattern matches the path. */
  function Lookup(routes: seq<Route>, verb: Verb, path: seq<string>): (r: Option<Handler>)
    ensures r.Some? <==> exists i :: 0 <= i < |routes| && Answers(routes[i], verb, path)
    ensures r.Some? ==> exists i ::
      && 0 <= i < |routes| && Answers(routes[i], verb, path) && routes[i].handler == r.value
      && forall j :: 0 <= j < i ==> !Answers(routes[j], verb, path)
  {
    if routes == [] then None
    else if Answers(routes[0], verb, path) then Some(routes[0].handler)
    else
      var r := Lookup(routes[1..], verb, path);
      assert forall i :: 0 < i < |routes| ==> routes[i] == routes[1..][i - 1];
      assert r.Some? ==> exists i ::
        && 0 <= i < |routes| && Answers(routes[i], verb, path) && routes[i].handler == r.value
        && forall j :: 0 <= j < i ==> !Answers(routes[j], verb, path) by {
        if r.Some? {
          var i :| 0 <= i < |routes[1..]| && Answers(routes[1..][i], verb, path) &&
            routes[1..][i].handler == r.value && forall j :: 0 <= j < i ==> !Answers(routes[1..][j], verb, path);
          assert forall j :: 0 <= j < i + 1 ==> !Answers(routes[j], verb, path) by {
            forall j | 0 <= j < i + 1
              ensures !Answers(routes[j], verb, path)
            {
              if j > 0 { assert routes[j] == routes[1..][j - 1]; }
            }
          }
          assert routes[i + 1] == routes[1..][i];
        }
      }
      r
  }

  /** The guards' verdict: stopped with a reply, or passed on with the account `protect` resolved. */
  datatype GuardOutcome = Stopped(code: int, message: string) | Passed(user: Option<User>)

  /** Runs the guards in order; `protect` sets the user, `admin` looks at it. */
  function RunGuards(guards: seq<Guard>, header: Option<string>, verify: string -> Option<Id>,
                     users: map<Id, User>, user: Option<User>): (r: GuardOutcome)
    ensures r.Stopped? ==> r.code == 401
    decreases |guards|
  {
    if guards == [] then Passed(user)
    else
      var verdict := match guards[0]
        case ProtectGuard => Protect(header, verify, users)
        case AdminGuard => Admin(user);
      match verdict
      case Unauthorized(code, message) => Stopped(code, message)
      case Authorized(u) => RunGuards(guards[1..], header, verify, users, Some(u))
  }

  datatype Outcome =
    | Rejected(code: int, message: string)
    | Dispatched(handler: Handler, user: Option<User>)
    | Unmatched  // passes out of the router to the application's later handlers

  /** A request entering `router`: guards first, then the route table. */
  function Gate(router: Router, verb: Verb, path: seq<string>, header: Option<string>,
                verify: string -> Option<Id>, users: map<Id, User>): Outcome
  {
    match RunGuards(router.guards, header, verify, users, None)
    case Stopped(code, message) => Rejected(code, message)
    case Passed(user) =>
      match Lookup(router.routes, verb, path)
      case Some(h) => Dispatched(h, user)
      case None => Unmatched
  }

  // ---------------------------------------------------------------------
  // The access policy
  // ---------------------------------------------------------------------

  predicate IsGuarded(router: Router) {
    router == AdminRouter || router == TaskRouter || router == FacultyRouter
  }

  /** On every guarded router, a request `protect` refuses is refused with its reply, whatever the path. */
  lemma {:induction false} UnauthenticatedRejected(router: Router, verb: Verb, path: seq<string>, header: Option<string>,
                                                  verify: string -> Option<Id>, users: map<Id, User>)
    requires IsGuarded(router)
    requires Protect(header, verify, users).Unauthorized?
    ensures Gate(router, verb, path, header, verify, users) ==
      Rejected(401, Protect(header, verify, users).message)
  {
    assert router.guards[0] == ProtectGuard;
  }

  /** Whatever an admin route does, it is done for an authenticated admin. */
  lemma {:induction false} AdminRoutesNeedAdmin(verb: Verb, path: seq<string>, header: Option<string>,
                                               verify: string -> Option<Id>, users: map<Id, User>)
    ensures Gate(AdminRouter, verb, path, header, verify, users).Dispatched? ==>
      && Protect(header, verify, users).Authorized?
      && var u := Gate(AdminRouter, verb, path, header, verify, users).user;
      && u == Some(Protect(header, verify, users).user) && u.value.role == "admin"
  {
    var g := AdminRouter.guards;
    assert g[1..] == [AdminGuard] && g[1..][1..] == [];
  }

  /** An authenticated non-admin is refused with 401 on every admin path, existing or not. */
  lemma {:induction false} NonAdminRefused(verb: Verb, path: seq<string>, header: Option<string>,
                                          verify: string -> Option<Id>, users: map<Id, User>)
    requires Protect(header, verify, users).Authorized?
    requires Protect(header, verify, users).user.role != "admin"
    ensures Gate(AdminRouter, verb, path, header, verify, users) == Rejected(401, NotAdminMessage)
  {
    var g := AdminRouter.guards;
    assert g[1..] == [AdminGuard];
  }

  /** There is no approve route: an admin's `PUT /users/:id/approve` passes the guards and matches nothing. */
  lemma {:induction false} NoApproveRoute(id: string, header: Option<string>,
                                         verify: string -> Option<Id>, users: map<Id, User>)
    requires Protect(header, verify, users).Authorized?
    requires Protect(header, verify, users).user.role == "admin"
    ensures Lookup(AdminRouter.routes, PUT, ["users", id, "approve"]) == None
    ensures Lookup(AdminRouter.routes, PUT, ["users", id, "disapprove"]) == None
    ensures Gate(AdminRouter, PUT, ["users", id, "approve"], header, verify, users) == Unmatched
  {
    NoThreeSegmentAdminRoute(PUT, ["users", id, "approve"]);
    NoThreeSegmentAdminRoute(PUT, ["users", id, "disapprove"]);
    var g := AdminRouter.guards;
    assert g[1..] == [AdminGuard] && g[1..][1..] == [];
  }

  /** No admin route has a three-segment pattern, so no three-segment path finds a handler. */
  lemma NoThreeSegmentAdminRoute(verb: Verb, path: seq<string>)
    requires |path| == 3
    ensures Lookup(AdminRouter.routes, verb, path) == None
  {
    assert forall i :: 0 <= i < |AdminRouter.routes| ==> |AdminRouter.routes[i].pattern| != 3;
  }

  /** Admin routes, in the table's order: the seven handlers and nothing else. */
  lemma AdminHandlers(verb: Verb, path: seq<string>)
    ensures Lookup(AdminRouter.routes, verb, path).Some? ==>
      Lookup(AdminRouter.routes, verb, path).value in
        {GetUsers, CreateUser, UpdateUser, DeleteUser, GetAllLeaves, UpdateLeaveStatus, GenerateReport}
  {
  }

  /** The task router never applies `admin`. */
  lemma TaskRouterHasNoAdminGuard()
    ensures AdminGuard !in TaskRouter.guards && AdminGuard !in FacultyRouter.guards
  {
  }

  /** On a router guarded by `protect` alone, an authenticated request goes straight to the route table. */
  lemma {:induction false} ProtectOnlyDispatch(router: Router, verb: Verb, path: seq<string>, header: Option<string>,
                                              verify: string -> Option<Id>, users: map<Id, User>)
    requires router.guards == [ProtectGuard]
    requires Protect(header, verify, users).Authorized?
    ensures Gate(router, verb, path, header, verify, users) ==
      match Lookup(router.routes, verb, path)
      case Some(h) => Dispatched(h, Some(Protect(header, verify, users).user))
      case None => Unmatched
  {
    var u := Protect(header, verify, users).user;
    assert router.guards[1..] == [];
    assert RunGuards([], header, verify, users, Some(u)) == Passed(Some(u));
    assert RunGuards(router.guards, header, verify, users, None) == Passed(Some(u));
  }

  /** A route that does not match is skipped. */
  lemma LookupSkip(routes: seq<Route>, verb: Verb, path: seq<string>)
    requires routes != [] && !Answers(routes[0], verb, path)
    ensures Lookup(routes, verb, path) == Lookup(routes[1..], verb, path)
  {
  }

  /** Any authenticated account, whatever its role, reaches `updateTaskStatus` for any task id. */
  lemma {:induction false} AnyoneUpdatesAnyTask(id: string, header: Option<string>,
                                               verify: string -> Option<Id>, users: map<Id, User>)
    requires id != ""
    requires Protect(header, verify, users).Authorized?
    ensures Gate(TaskRouter, PUT, [id], header, verify, users) ==
      Dispatched(UpdateTaskStatus, Some(Protect(header, verify, users).user))
  {
    var rs := TaskRouter.routes;
    assert PathMatches(rs[2].pattern, [id]);
    LookupSkip(rs, PUT, [id]);
    LookupSkip(rs[1..], PUT, [id]);
    assert rs[1..][1..] == rs[2..];
    ProtectOnlyDispatch(TaskRouter, PUT, [id], header, verify, users);
  }

  /** Any authenticated account reaches `createTask`; only the handler's own role check restricts it. */
  lemma {:induction false} AnyoneReachesCreateTask(header: Option<string>, verify: string -> Option<Id>, users: map<Id, User>)
    requires Protect(header, verify, users).Authorized?
    ensures Gate(TaskRouter, POST, [], header, verify, users) ==
      Dispatched(CreateTask, Some(Protect(header, verify, users).user))
  {
    ProtectOnlyDispatch(TaskRouter, POST, [], header, verify, users);
  }

  /** `GET /reports/:userId` on the faculty router is the per-user report, for any non-empty id. */
  lemma {:induction false} ReportRoute(userId: string)
    requires userId != ""
    ensures Lookup(FacultyRouter.routes, GET, ["reports", userId]) == Some(GenerateFacultyReport)
  {
    var rs := FacultyRouter.routes;
    var path := ["reports", userId];
    assert PathMatches(rs[5].pattern, path);
    var k := 0;
    while k < 5
      invariant 0 <= k <= 5
      invariant Lookup(rs, GET, path) == Lookup(rs[k..], GET, path)
    {
      assert rs[k].pattern[0] != path[0];
      LookupSkip(rs[k..], GET, path);
      assert rs[k..][1..] == rs[k + 1..];
      k := k + 1;
    }
  }

  /** The per-user report is open to any authenticated account, lecturers included. */
  lemma {:induction false} ReportRouteOpen(userId: string, header: Option<string>,
                                          verify: string -> Option<Id>, users: map<Id, User>)
    requires userId != ""
    requires Protect(header, verify, users).Authorized?
    ensures Gate(FacultyRouter, GET, ["reports", userId], header, verify, users) ==
      Dispatched(GenerateFacultyReport, Some(Protect(header, verify, users).user))
  {
    ReportRoute(userId);
    ProtectOnlyDispatch(FacultyRouter, GET, ["reports", userId], header, verify, users);
  }

  /** `GET /all` on the faculty router is the staff directory. */
  lemma {:induction false} DirectoryRoute()
    ensures Lookup(FacultyRouter.routes, GET, ["all"]) == Some(GetAllFaculty)
  {
    var rs := FacultyRouter.routes;
    var k := 0;
    while k < 4
      invariant 0 <= k <= 4
      invariant Lookup(rs, GET, ["all"]) == Lookup(rs[k..], GET, ["all"])
    {
      assert rs[k].pattern[0] != "all";
      LookupSkip(rs[k..], GET, ["all"]);
      assert rs[k..][1..] == rs[k + 1..];
      k := k + 1;
    }
    assert Answers(rs[4..][0], GET, ["all"]);
  }

  /** The staff directory is open to any authenticated account. */
  lemma {:induction false} DirectoryOpen(header: Option<string>, verify: string -> Option<Id>, users: map<Id, User>)
    requires Protect(header, verify, users).Authorized?
    ensures Gate(FacultyRouter, GET, ["all"], header, verify, users) ==
      Dispatched(GetAllFaculty, Some(Protect(header, verify, users).user))
  {
    DirectoryRoute();
    ProtectOnlyDispatch(FacultyRouter, GET, ["all"], header, verify, users);
  }
}
