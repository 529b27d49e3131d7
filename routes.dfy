/**
 * The HTTP layer: the `requireAuth` and `requireRole` gates, the table of
 * which route needs which roles, the binding of handler arguments (path and
 * session win over the request body), the password redaction of `/api/users`
 * and the 404 of a missing report.
 *
 * The session is an explicit `Option<Principal>`; the wall clock is a `now`
 * parameter; path parameters arrive already parsed as integers.
 */
module Routes {
  import opened Wrappers
  import opened Schema
  import opened Tables
  import opened Budget
  import opened Storage

  /** The authenticated user a session carries. */
  datatype Principal = Principal(id: nat, role: Role)
  type Session = Option<Principal>

  /** What the gates decide for a request. */
  datatype Outcome = Unauth | Forbidden | Ok

  /** `requireAuth`: no session is a 401; otherwise the next handler runs. */
  function RequireAuth(session: Session): (r: Outcome)
    ensures r == Unauth <==> session.None?
    ensures r == Ok <==> session.Some?
  {
    if session.None? then Unauth else Ok
  }

  /** `requireRole(roles)`: a 403 unless a user is present whose role string is listed. */
  function RequireRole(roles: seq<string>, session: Session): (r: Outcome)
    ensures r == Ok <==> session.Some? && RoleName(session.value.role) in roles
    ensures r == Forbidden <==> !(session.Some? && RoleName(session.value.role) in roles)
  {
    if session.None? || RoleName(session.value.role) !in roles then Forbidden else Ok
  }

  // ----------------------------------------------------------- the policy

  /** The routes `registerRoutes` installs. */
  datatype Route =
    | ListProjects | PostProject
    | ListTasks | PostTask | PatchTaskStatus
    | PostAttendance | ReadAttendance
    | ListBudget | PostBudget | ReadBudgetSummary
    | ListMilestones | PostMilestone | PatchMilestoneStatus
    | ListReports | PostReport | ReadReport
    | ListUsers

  /** The roles of the mutation endpoints that carry `requireRole`. */
  const ManagerRoles: seq<string> := ["admin", "project_officer"]

  /** The `requireRole` list a route carries after `requireAuth`, if any. */
  function RequiredRoles(route: Route): Option<seq<string>> {
    match route
    case ListProjects => None
    case PostProject => Some(ManagerRoles)
    case ListTasks => None
    case PostTask => Some(ManagerRoles)
    case PatchTaskStatus => None
    case PostAttendance => None
    case ReadAttendance => None
    case ListBudget => None
    case PostBudget => Some(ManagerRoles)
    case ReadBudgetSummary => None
    case ListMilestones => None
    case PostMilestone => Some(ManagerRoles)
    case PatchMilestoneStatus => Some(ManagerRoles)
    case ListReports => None
    case PostReport => Some(ManagerRoles)
    case ReadReport => None
    case ListUsers => None
  }

  /** The six routes that create a project, task, budget item, milestone or report, or move a milestone. */
  predicate ManagerOnly(route: Route) {
    route in {PostProject, PostTask, PostBudget, PostMilestone, PatchMilestoneStatus, PostReport}
  }

  /**
   * Both gates in the order the routes list them: `requireAuth` first, then
   * `requireRole` where the route has one.
   */
  function Authorize(route: Route, session: Session): (r: Outcome)
    ensures r == Unauth <==> session.None?
    ensures r == Forbidden <==> session.Some? && ManagerOnly(route) && session.value.role == Employee
    ensures r == Ok <==> session.Some? && (!ManagerOnly(route) || IsManager(session.value.role))
  {
    if RequireAuth(session) != Ok then Unauth
    else match RequiredRoles(route)
      case None => Ok
      case Some(roles) => RequireRole(roles, session)
  }

  /** The role list of a route is there exactly on the manager-only routes. */
  lemma RequiredRolesAreManagerRoles(route: Route)
    ensures RequiredRoles(route).Some? <==> ManagerOnly(route)
    ensures RequiredRoles(route).Some? ==> RequiredRoles(route).value == ["admin", "project_officer"]
  {
  }

  /** With no session every route is a 401: authentication is checked before any role. */
  lemma NoSessionIsUnauthorized(route: Route)
    ensures Authorize(route, None) == Unauth
  {
  }

  /** An employee is refused exactly the manager-only routes. */
  lemma EmployeeForbiddenExactly(route: Route, id: nat)
    ensures Authorize(route, Some(Principal(id, Employee))) == Forbidden <==> ManagerOnly(route)
    ensures !ManagerOnly(route) ==> Authorize(route, Some(Principal(id, Employee))) == Ok
  {
  }

  /** An admin or a project officer passes every gate. */
  lemma ManagersPassEverywhere(route: Route, p: Principal)
    requires IsManager(p.role)
    ensures Authorize(route, Some(p)) == Ok
  {
  }

  /** Patching a task's status and marking attendance need only a session. */
  lemma AuthenticationSuffices(p: Principal)
    ensures Authorize(PatchTaskStatus, Some(p)) == Ok
    ensures Authorize(PostAttendance, Some(p)) == Ok
  {
  }

  // -------------------------------------------------------------- replies

  /** A response: a `{message}` body with a status, a JSON body, or a rejected store call. */
  datatype Reply<T> =
    | Message(status: nat, message: string)
    | Json(status: nat, body: T)
    | StoreFailure

  /** The reply the gates send instead of running the handler, or None when it runs. */
  function Gate<T>(route: Route, session: Session): (r: Option<Reply<T>>)
    ensures r.None? <==> Authorize(route, session) == Ok
    ensures session.None? ==> r == Some(Message(401, "Unauthorized"))
    ensures session.Some? && ManagerOnly(route) && !IsManager(session.value.role) ==> (
      r == Some(Message(403, "Forbidden")))
  {
    match Authorize(route, session)
    case Unauth => Some(Message(401, "Unauthorized"))
    case Forbidden => Some(Message(403, "Forbidden"))
    case Ok => None
  }

  // ---------------------------------------------------- argument binding

  /** `{...req.body, projectId}`: the path's project replaces the body's. */
  function BindTask(projectId: int, body: NewTask): (t: NewTask)
    ensures t.projectId == Some(projectId)
    ensures t.title == body.title && t.description == body.description && t.assigneeId == body.assigneeId
    ensures t.status == body.status && t.dueDate == body.dueDate && t.priority == body.priority
  {
    body.(projectId := Some(projectId))
  }

  /** `{...req.body, projectId, createdBy: req.user.id}`: path and session replace the body. */
  function BindBudgetItem(projectId: int, user: Principal, body: NewBudgetItem): (b: NewBudgetItem)
    ensures b.projectId == Some(projectId) && b.createdBy == Some(user.id)
    ensures b.description == body.description && b.amount == body.amount && b.kind == body.kind
    ensures b.category == body.category && b.date == body.date
  {
    body.(projectId := Some(projectId), createdBy := Some(user.id))
  }

  /** `{...req.body, projectId}` for a milestone. */
  function BindMilestone(projectId: int, body: NewMilestone): (m: NewMilestone)
    ensures m.projectId == Some(projectId)
    ensures m.title == body.title && m.description == body.description && m.dueDate == body.dueDate
    ensures m.status == body.status && m.completionDate == body.completionDate
  {
    body.(projectId := Some(projectId))
  }

  /** `{...req.body, projectId, createdBy: req.user.id}` for a report. */
  function BindReport(projectId: int, user: Principal, body: NewReport): (r: NewReport)
    ensures r.projectId == Some(projectId) && r.createdBy == Some(user.id)
    ensures r.title == body.title && r.content == body.content && r.kind == body.kind
    ensures r.createdAt == body.createdAt && r.attachments == body.attachments
  {
    body.(projectId := Some(projectId), createdBy := Some(user.id))
  }

  /** The attendance mark: the session's user, the current time, the body's status. */
  function BindAttendance(user: Principal, now: Instant, status: AttendanceStatus): (a: NewAttendance)
    ensures a.userId == Some(user.id) && a.date == now && a.status == status
  {
    NewAttendance(Some(user.id), now, status)
  }

  /** Whatever project or author the body names, the bound insert is the same. */
  lemma BodyCannotChooseProjectOrAuthor(projectId: int, user: Principal,
                                        t1: NewTask, t2: NewTask, b1: NewBudgetItem, b2: NewBudgetItem,
                                        m1: NewMilestone, m2: NewMilestone, r1: NewReport, r2: NewReport)
    requires t1.(projectId := None) == t2.(projectId := None)
    requires b1.(projectId := None, createdBy := None) == b2.(projectId := None, createdBy := None)
    requires m1.(projectId := None) == m2.(projectId := None)
    requires r1.(projectId := None, createdBy := None) == r2.(projectId := None, createdBy := None)
    ensures BindTask(projectId, t1) == BindTask(projectId, t2)
    ensures BindBudgetItem(projectId, user, b1) == BindBudgetItem(projectId, user, b2)
    ensures BindMilestone(projectId, m1) == BindMilestone(projectId, m2)
    ensures BindReport(projectId, user, r1) == BindReport(projectId, user, r2)
  {
    assert t1 == t2.(projectId := t1.projectId);
    assert b1 == b2.(projectId := b1.projectId, createdBy := b1.createdBy);
    assert m1 == m2.(projectId := m1.projectId);
    assert r1 == r2.(projectId := r1.projectId, createdBy := r1.createdBy);
  }

  // -------------------------------------------------- password redaction

  /** A user record without its password. */
  datatype PublicUser = PublicUser(id: nat, username: string, role: Role, name: string)

  /** `({password, ...user}) => user`. */
  function Redact(u: User): (p: PublicUser)
    ensures p.id == u.id && p.username == u.username && p.role == u.role && p.name == u.name
  {
    PublicUser(u.id, u.username, u.role, u.name)
  }

  /** Putting a password back into a redacted record. */
  function WithPassword(p: PublicUser, password: string): (u: User)
    ensures u.password == password
    ensures u.id == p.id && u.username == p.username && u.role == p.role && u.name == p.name
  {
    User(p.id, p.username, password, p.role, p.name)
  }

  /** Redaction loses the password and nothing else. */
  lemma RedactKeepsAllButPassword(u: User)
    ensures WithPassword(Redact(u), u.password) == u
    ensures forall pw: string :: Redact(WithPassword(Redact(u), pw)) == Redact(u)
  {
  }

  /** `users.map(...)`: the same users in the same order, each redacted. */
  function RedactAll(users: seq<User>): (r: seq<PublicUser>)
    ensures |r| == |users|
    ensures forall i :: 0 <= i < |users| ==> r[i] == Redact(users[i])
  {
    seq(|users|, i requires 0 <= i < |users| => Redact(users[i]))
  }

  /** The redacted list does not depend on any password: two tables that differ only in passwords answer alike. */
  lemma RedactAllIgnoresPasswords(a: seq<User>, b: seq<User>)
    requires |a| == |b|
    requires forall i :: 0 <= i < |a| ==> a[i].(password := "") == b[i].(password := "")
    ensures RedactAll(a) == RedactAll(b)
  {
    forall i | 0 <= i < |a| ensures Redact(a[i]) == Redact(b[i]) {
      assert Redact(a[i]) == Redact(a[i].(password := ""));
      assert Redact(b[i]) == Redact(b[i].(password := ""));
    }
  }

  // ------------------------------------------------------------- handlers

  /** GET /api/projects */
  method HandleListProjects(s: Store, session: Session) returns (reply: Reply<seq<Project>>)
    ensures session.None? ==> reply == Message(401, "Unauthorized")
    ensures session.Some? ==> reply == Json(200, s.projects)
  {
    var gate := Gate<seq<Project>>(ListProjects, session);
    if gate.Some? {
      return gate.value;
    }
    reply := Json(200, s.GetProjects());
  }

  /** POST /api/projects: the body goes to the store unchanged. */
  method HandlePostProject(s: Store, session: Session, body: NewProject) returns (reply: Reply<Project>)
    requires s.Valid()
    modifies s`projects, s`nextProjectId
    ensures s.Valid()
    ensures Authorize(PostProject, session) != Ok ==> (
      Gate(PostProject, session) == Some(reply) && unchanged(s))
    ensures Authorize(PostProject, session) == Ok && !FitsDecimal(ProjectRow(old(s.nextProjectId), body).budget) ==> (
      reply == StoreFailure && unchanged(s))
    ensures Authorize(PostProject, session) == Ok && FitsDecimal(ProjectRow(old(s.nextProjectId), body).budget) ==> (
      reply == Json(201, ProjectRow(old(s.nextProjectId), body)) && s.projects == old(s.projects) + [reply.body])
  {
    var gate := Gate<Project>(PostProject, session);
    if gate.Some? {
      return gate.value;
    }
    var p := s.CreateProject(body);
    reply := if p.Some? then Json(201, p.value) else StoreFailure;
  }

  /** GET /api/projects/:projectId/tasks */
  method HandleListTasks(s: Store, session: Session, projectId: int) returns (reply: Reply<seq<Task>>)
    ensures session.None? ==> reply == Message(401, "Unauthorized")
    ensures session.Some? ==> (reply.Json? && reply.status == 200 &&
      (forall t :: t in reply.body <==> t in s.tasks && t.projectId == Some(projectId)))
  {
    var gate := Gate<seq<Task>>(ListTasks, session);
    if gate.Some? {
      return gate.value;
    }
    reply := Json(200, s.GetTasks(projectId));
  }

  /** POST /api/projects/:projectId/tasks: the task lands in the path's project. */
  method HandlePostTask(s: Store, session: Session, projectId: int, body: NewTask) returns (reply: Reply<Task>)
    requires s.Valid()
    modifies s`tasks, s`nextTaskId
    ensures s.Valid()
    ensures Authorize(PostTask, session) != Ok ==> Gate(PostTask, session) == Some(reply) && unchanged(s)
    ensures Authorize(PostTask, session) == Ok ==> (
      reply == Json(201, TaskRow(old(s.nextTaskId), BindTask(projectId, body))) &&
      s.tasks == old(s.tasks) + [reply.body] && reply.body in s.GetTasks(projectId))
  {
    var gate := Gate<Task>(PostTask, session);
    if gate.Some? {
      return gate.value;
    }
    var t := s.CreateTask(BindTask(projectId, body));
    reply := Json(201, t);
  }

  /**
   * PATCH /api/tasks/:taskId/status: only a session is needed. A missing id
   * updates nothing and answers 200 with no body (`res.json(undefined)`).
   */
  method HandlePatchTaskStatus(s: Store, session: Session, taskId: int, status: TaskStatus)
    returns (reply: Reply<Option<Task>>)
    requires s.Valid()
    modifies s`tasks
    ensures s.Valid()
    ensures session.None? ==> reply == Message(401, "Unauthorized") && unchanged(s)
    ensures session.Some? ==> s.tasks == SetTaskStatus(old(s.tasks), taskId, status) && reply.Json? && reply.status == 200
    ensures session.Some? ==> (reply.body.None? <==>
      forall i :: 0 <= i < |old(s.tasks)| ==> old(s.tasks)[i].id != taskId)
    ensures session.Some? && (forall i :: 0 <= i < |old(s.tasks)| ==> old(s.tasks)[i].id != taskId) ==> (
      reply == Json(200, None) && s.tasks == old(s.tasks))
    ensures session.Some? && reply.Json? && reply.body.Some? ==> (
      reply.body.value.id == taskId && reply.body.value.status == status && reply.body.value in s.tasks)
  {
    var gate := Gate<Option<Task>>(PatchTaskStatus, session);
    if gate.Some? {
      return gate.value;
    }
    var t := s.UpdateTaskStatus(taskId, status);
    reply := Json(200, t);
  }

  /** POST /api/attendance: marked for the session's user, at the current time. */
  method HandlePostAttendance(s: Store, session: Session, now: Instant, status: AttendanceStatus)
    returns (reply: Reply<Attendance>)
    requires s.Valid()
    modifies s`attendance, s`nextAttendanceId
    ensures s.Valid()
    ensures session.None? ==> reply == Message(401, "Unauthorized") && unchanged(s)
    ensures session.Some? ==> (
      reply == Json(201, AttendanceRow(old(s.nextAttendanceId), BindAttendance(session.value, now, status))) &&
      s.attendance == old(s.attendance) + [reply.body] && reply.body.userId == Some(session.value.id))
  {
    var gate := Gate<Attendance>(PostAttendance, session);
    if gate.Some? {
      return gate.value;
    }
    var a := s.MarkAttendance(BindAttendance(session.value, now, status));
    reply := Json(201, a);
  }

  /** GET /api/attendance: what `getAttendance` answers for the session user, or no body. */
  method HandleReadAttendance(s: Store, session: Session, now: Instant) returns (reply: Reply<Option<Attendance>>)
    ensures session.None? ==> reply == Message(401, "Unauthorized")
    ensures session.Some? ==> reply.Json? && reply.status == 200
    ensures session.Some? ==> (reply.body.None? <==>
      forall i :: 0 <= i < |s.attendance| ==> s.attendance[i].userId != Some(session.value.id))
    ensures session.Some? && reply.body.Some? ==> (
      reply.body.value in s.attendance && reply.body.value.userId == Some(session.value.id))
    ensures session.Some? ==> reply.body == s.GetAttendance(session.value.id, now)
  {
    var gate := Gate<Option<Attendance>>(ReadAttendance, session);
    if gate.Some? {
      return gate.value;
    }
    reply := Json(200, s.GetAttendance(session.value.id, now));
  }

  /** GET /api/projects/:projectId/budget?startDate&endDate */
  method HandleListBudget(s: Store, session: Session, projectId: int, startDate: Option<Day>, endDate: Option<Day>)
    returns (reply: Reply<seq<BudgetItem>>)
    ensures session.None? ==> reply == Message(401, "Unauthorized")
    ensures session.Some? ==> (reply.Json? && reply.status == 200 &&
      (forall b :: b in reply.body <==> (b in s.budgetItems && b.projectId == Some(projectId) &&
        InWindow(b.date, startDate, endDate))))
  {
    var gate := Gate<seq<BudgetItem>>(ListBudget, session);
    if gate.Some? {
      return gate.value;
    }
    reply := Json(200, s.GetBudgetItems(projectId, startDate, endDate));
  }

  /** POST /api/projects/:projectId/budget: path project, session author. */
  method HandlePostBudget(s: Store, session: Session, projectId: int, body: NewBudgetItem)
    returns (reply: Reply<BudgetItem>)
    requires s.Valid()
    modifies s`budgetItems, s`nextBudgetItemId
    ensures s.Valid()
    ensures Authorize(PostBudget, session) != Ok ==> Gate(PostBudget, session) == Some(reply) && unchanged(s)
    ensures Authorize(PostBudget, session) == Ok && !FitsDecimal(body.amount) ==> (
      reply == StoreFailure && unchanged(s))
    ensures Authorize(PostBudget, session) == Ok && FitsDecimal(body.amount) ==> (
      reply == Json(201, BudgetItemRow(old(s.nextBudgetItemId), BindBudgetItem(projectId, session.value, body))) &&
      s.budgetItems == old(s.budgetItems) + [reply.body] &&
      s.GetBudgetItems(projectId, None, None) == old(s.GetBudgetItems(projectId, None, None)) + [reply.body])
  {
    var gate := Gate<BudgetItem>(PostBudget, session);
    if gate.Some? {
      return gate.value;
    }
    var b := s.CreateBudgetItem(BindBudgetItem(projectId, session.value, body));
    reply := if b.Some? then Json(201, b.value) else StoreFailure;
  }

  /** GET /api/projects/:projectId/budget/summary: the summary of every item of the project. */
  method HandleReadBudgetSummary(s: Store, session: Session, projectId: int) returns (reply: Reply<Summary>)
    ensures session.None? ==> reply == Message(401, "Unauthorized")
    ensures session.Some? ==> reply == Json(200, Summarize(s.GetBudgetItems(projectId, None, None)))
  {
    var gate := Gate<Summary>(ReadBudgetSummary, session);
    if gate.Some? {
      return gate.value;
    }
    var summary := s.GetProjectBudgetSummary(projectId);
    reply := Json(200, summary);
  }

  /** GET /api/projects/:projectId/milestones */
  method HandleListMilestones(s: Store, session: Session, projectId: int) returns (reply: Reply<seq<Milestone>>)
    ensures session.None? ==> reply == Message(401, "Unauthorized")
    ensures session.Some? ==> (reply.Json? && reply.status == 200 &&
      (forall m :: m in reply.body <==> m in s.milestones && m.projectId == Some(projectId)))
  {
    var gate := Gate<seq<Milestone>>(ListMilestones, session);
    if gate.Some? {
      return gate.value;
    }
    reply := Json(200, s.GetMilestones(projectId));
  }

  /** POST /api/projects/:projectId/milestones: the milestone lands in the path's project. */
  method HandlePostMilestone(s: Store, session: Session, projectId: int, body: NewMilestone)
    returns (reply: Reply<Milestone>)
    requires s.Valid()
    modifies s`milestones, s`nextMilestoneId
    ensures s.Valid()
    ensures Authorize(PostMilestone, session) != Ok ==> Gate(PostMilestone, session) == Some(reply) && unchanged(s)
    ensures Authorize(PostMilestone, session) == Ok ==> (
      reply == Json(201, MilestoneRow(old(s.nextMilestoneId), BindMilestone(projectId, body))) &&
      s.milestones == old(s.milestones) + [reply.body] && reply.body in s.GetMilestones(projectId))
  {
    var gate := Gate<Milestone>(PostMilestone, session);
    if gate.Some? {
      return gate.value;
    }
    var m := s.CreateMilestone(BindMilestone(projectId, body));
    reply := Json(201, m);
  }

  /** PATCH /api/milestones/:id/status: a given completion date is stored, an absent one kept. */
  method HandlePatchMilestoneStatus(s: Store, session: Session, id: int, status: MilestoneStatus,
                                    completionDate: Option<Day>)
    returns (reply: Reply<Option<Milestone>>)
    requires s.Valid()
    modifies s`milestones
    ensures s.Valid()
    ensures Authorize(PatchMilestoneStatus, session) != Ok ==> (
      Gate(PatchMilestoneStatus, session) == Some(reply) && unchanged(s))
    ensures Authorize(PatchMilestoneStatus, session) == Ok ==> (
      s.milestones == SetMilestoneStatus(old(s.milestones), id, status, completionDate) &&
      reply.Json? && reply.status == 200)
    ensures Authorize(PatchMilestoneStatus, session) == Ok ==> (reply.body.None? <==>
      forall i :: 0 <= i < |old(s.milestones)| ==> old(s.milestones)[i].id != id)
    ensures Authorize(PatchMilestoneStatus, session) == Ok && reply.Json? && reply.body.Some? ==> (
      reply.body.value.id == id && reply.body.value.status == status && reply.body.value in s.milestones &&
      (completionDate.Some? ==> reply.body.value.completionDate == completionDate))
  {
    var gate := Gate<Option<Milestone>>(PatchMilestoneStatus, session);
    if gate.Some? {
      return gate.value;
    }
    var m := s.UpdateMilestoneStatus(id, status, completionDate);
    reply := Json(200, m);
  }

  /** GET /api/projects/:projectId/reports */
  method HandleListReports(s: Store, session: Session, projectId: int) returns (reply: Reply<seq<Report>>)
    ensures session.None? ==> reply == Message(401, "Unauthorized")
    ensures session.Some? ==> (reply.Json? && reply.status == 200 &&
      (forall x :: x in reply.body <==> x in s.reports && x.projectId == Some(projectId)))
  {
    var gate := Gate<seq<Report>>(ListReports, session);
    if gate.Some? {
      return gate.value;
    }
    reply := Json(200, s.GetReports(projectId));
  }

  /** POST /api/projects/:projectId/reports: path project, session author, time of creation `now`. */
  method HandlePostReport(s: Store, session: Session, projectId: int, body: NewReport, now: Instant)
    returns (reply: Reply<Report>)
    requires s.Valid()
    modifies s`reports, s`nextReportId
    ensures s.Valid()
    ensures Authorize(PostReport, session) != Ok ==> Gate(PostReport, session) == Some(reply) && unchanged(s)
    ensures Authorize(PostReport, session) == Ok ==> (
      reply == Json(201, ReportRow(old(s.nextReportId), BindReport(projectId, session.value, body), now)) &&
      s.reports == old(s.reports) + [reply.body] && s.GetReport(reply.body.id) == Some(reply.body))
  {
    var gate := Gate<Report>(PostReport, session);
    if gate.Some? {
      return gate.value;
    }
    var r := s.CreateReport(BindReport(projectId, session.value, body), now);
    reply := Json(201, r);
  }

  /** GET /api/reports/:id: the report, or a 404 when no row has the id. */
  method HandleReadReport(s: Store, session: Session, id: int) returns (reply: Reply<Report>)
    ensures session.None? ==> reply == Message(401, "Unauthorized")
    ensures session.Some? && (forall i :: 0 <= i < |s.reports| ==> s.reports[i].id != id) ==> (
      reply == Message(404, "Report not found"))
    ensures session.Some? && (exists i :: 0 <= i < |s.reports| && s.reports[i].id == id) ==> (
      reply.Json? && reply.status == 200 && reply.body in s.reports && reply.body.id == id)
  {
    var gate := Gate<Report>(ReadReport, session);
    if gate.Some? {
      return gate.value;
    }
    var r := s.GetReport(id);
    if r.None? {
      return Message(404, "Report not found");
    }
    reply := Json(200, r.value);
  }

  /** GET /api/users: every user, in table order, without the password. */
  method HandleListUsers(s: Store, session: Session) returns (reply: Reply<seq<PublicUser>>)
    ensures session.None? ==> reply == Message(401, "Unauthorized")
    ensures session.Some? ==> reply.Json? && reply.status == 200 && |reply.body| == |s.users|
    ensures session.Some? ==> (forall i :: 0 <= i < |s.users| ==>
      WithPassword(reply.body[i], s.users[i].password) == s.users[i])
  {
    var gate := Gate<seq<PublicUser>>(ListUsers, session);
    if gate.Some? {
      return gate.value;
    }
    reply := Json(200, RedactAll(s.GetUsers()));
  }

  // ------------------------------------------------------------ scenario

  lemma ReefSummary(income: BudgetItem, expense: BudgetItem)
    requires income.kind == Income && income.amount == 40000
    requires expense.kind == Expense && expense.amount == 15000
    ensures Summarize([income, expense]) == Summary(40000, 15000)
  {
    assert [income, expense][..1] == [income];
    SummarizeOne(income);
  }

  /** A project "Reef" with an income of 400.00 and an expense of 150.00 summarises to {400.00, 150.00}. */
  method ReefScenario() returns (summary: Summary)
    ensures summary == Summary(40000, 15000)
  {
    var s := new Store();
    var p := s.CreateProject(NewProject("Reef", "d", Some(100000), None, None));
    var pid := p.value.id;
    assert s.GetBudgetItems(pid, None, None) == [];
    var income := s.CreateBudgetItem(NewBudgetItem(Some(pid), "grant", 40000, Income, BudgetCategory.Other, 0, None));
    ghost var afterIncome := s.GetBudgetItems(pid, None, None);
    assert afterIncome == [income.value];
    var expense := s.CreateBudgetItem(NewBudgetItem(Some(pid), "gear", 15000, Expense, Equipment, 0, None));
    assert expense.Some? && expense.value.projectId == Some(pid);
    assert s.GetBudgetItems(pid, None, None) == afterIncome + [expense.value];
    ReefSummary(income.value, expense.value);
    summary := s.GetProjectBudgetSummary(pid);
  }
}
