/**
 * The shared schema: the role and status enumerations, the seven tables'
 * rows, the column defaults an insert applies, the decimal(10,2) range of
 * money columns, the registration validator and the login projection.
 *
 * Money is held in integer cents, calendar dates as integer day numbers and
 * timestamps as integer instants. Nullable columns are `Option`s.
 */
module Schema {
  import opened Wrappers

  // ---------------------------------------------------------------- roles

  datatype Role = Admin | ProjectOfficer | Employee

  /** The role's stored string. */
  function RoleName(r: Role): string {
    match r
    case Admin => "admin"
    case ProjectOfficer => "project_officer"
    case Employee => "employee"
  }

  /** The role a string names, if any: the `z.enum` of the registration schema. */
  function ParseRole(s: string): (r: Option<Role>)
    ensures r.Some? ==> RoleName(r.value) == s
    ensures r.None? <==> forall role: Role :: RoleName(role) != s
  {
    if s == "admin" then Some(Admin)
    else if s == "project_officer" then Some(ProjectOfficer)
    else if s == "employee" then Some(Employee)
    else None
  }

  /** The roles that hold the management rights: admin and project officer. */
  predicate IsManager(role: Role) {
    role == Admin || role == ProjectOfficer
  }

  /** The column default of `users.role`. */
  const DefaultRole: Role := Employee

  lemma RoleNameRoundTrip(r: Role)
    ensures ParseRole(RoleName(r)) == Some(r)
  {
  }

  /** Distinct roles are stored as distinct strings. */
  lemma RoleNameInjective(a: Role, b: Role)
    ensures RoleName(a) == RoleName(b) ==> a == b
  {
    RoleNameRoundTrip(a);
    RoleNameRoundTrip(b);
  }

  // ---------------------------------------------------------- enumerations

  datatype ProjectStatus = Planned | Active | Completed | OnHold
  datatype TaskStatus = Todo | InProgress | Completed
  datatype Priority = Low | Medium | High
  datatype AttendanceStatus = Present | Absent | Late
  datatype BudgetType = Income | Expense
  datatype BudgetCategory = Salary | Equipment | Travel | Supplies | Other
  datatype MilestoneStatus = Pending | Completed | Delayed
  datatype ReportType = Progress | Financial | MilestoneReport | Other

  /** The stored string of a task status (the key of the dashboard histogram). */
  function TaskStatusName(s: TaskStatus): string {
    match s
    case Todo => "todo"
    case InProgress => "in_progress"
    case Completed => "completed"
  }

  // ------------------------------------------------------------- numbers

  type Cents = int
  type Day = int
  type Instant = int

  /** Largest magnitude of a decimal(10,2) value, in cents: 99999999.99. */
  const MaxDecimalCents: int := 9_999_999_999

  /** A decimal(10,2) column holds at most 8 integer and 2 fractional digits. */
  predicate FitsDecimal(c: Cents) {
    -MaxDecimalCents <= c <= MaxDecimalCents
  }

  // ---------------------------------------------------------------- rows

  datatype User = User(id: nat, username: string, password: string, role: Role, name: string)
  datatype NewUser = NewUser(username: string, password: string, role: Option<Role>, name: string)

  datatype Project = Project(id: nat, name: string, description: string, budget: Cents,
                             status: ProjectStatus, managerId: Option<nat>)
  datatype NewProject = NewProject(name: string, description: string, budget: Option<Cents>,
                                   status: Option<ProjectStatus>, managerId: Option<nat>)

  datatype Task = Task(id: nat, title: string, description: string, projectId: Option<int>,
                       assigneeId: Option<nat>, status: TaskStatus, dueDate: Option<Instant>,
                       priority: Priority)
  datatype NewTask = NewTask(title: string, description: string, projectId: Option<int>,
                             assigneeId: Option<nat>, status: Option<TaskStatus>,
                             dueDate: Option<Instant>, priority: Option<Priority>)

  datatype Attendance = Attendance(id: nat, userId: Option<nat>, date: Instant, status: AttendanceStatus)
  datatype NewAttendance = NewAttendance(userId: Option<nat>, date: Instant, status: AttendanceStatus)

  datatype BudgetItem = BudgetItem(id: nat, projectId: Option<int>, description: string, amount: Cents,
                                   kind: BudgetType, category: BudgetCategory, date: Day,
                                   createdBy: Option<nat>)
  datatype NewBudgetItem = NewBudgetItem(projectId: Option<int>, description: string, amount: Cents,
                                         kind: BudgetType, category: BudgetCategory, date: Day,
                                         createdBy: Option<nat>)

  datatype Milestone = Milestone(id: nat, projectId: Option<int>, title: string, description: string,
                                 dueDate: Day, status: MilestoneStatus, completionDate: Option<Day>)
  datatype NewMilestone = NewMilestone(projectId: Option<int>, title: string, description: string,
                                       dueDate: Day, status: Option<MilestoneStatus>,
                                       completionDate: Option<Day>)

  datatype Report = Report(id: nat, projectId: Option<int>, title: string, content: string,
                           kind: ReportType, createdAt: Instant, createdBy: Option<nat>,
                           attachments: seq<string>)
  datatype NewReport = NewReport(projectId: Option<int>, title: string, content: string,
                                 kind: ReportType, createdAt: Option<Instant>, createdBy: Option<nat>,
                                 attachments: Option<seq<string>>)

  // --------------------------------------------- inserts and their defaults

  /** The row inserted for a new user: the role falls back to employee. */
  function UserRow(id: nat, u: NewUser): (r: User)
    ensures r.id == id && r.username == u.username && r.password == u.password && r.name == u.name
    ensures u.role.None? ==> r.role == Employee
    ensures u.role.Some? ==> r.role == u.role.value
  {
    User(id, u.username, u.password, u.role.GetOr(DefaultRole), u.name)
  }

  /** The row inserted for a new project: budget defaults to 0, status to planned. */
  function ProjectRow(id: nat, p: NewProject): (r: Project)
    ensures r.id == id && r.name == p.name && r.description == p.description && r.managerId == p.managerId
    ensures r.budget == (if p.budget.Some? then p.budget.value else 0)
    ensures r.status == (if p.status.Some? then p.status.value else Planned)
  {
    Project(id, p.name, p.description, p.budget.GetOr(0), p.status.GetOr(Planned), p.managerId)
  }

  /** The row inserted for a new task: status defaults to todo, priority to medium. */
  function TaskRow(id: nat, t: NewTask): (r: Task)
    ensures r.id == id && r.title == t.title && r.description == t.description
    ensures r.projectId == t.projectId && r.assigneeId == t.assigneeId && r.dueDate == t.dueDate
    ensures r.status == (if t.status.Some? then t.status.value else Todo)
    ensures r.priority == (if t.priority.Some? then t.priority.value else Medium)
  {
    Task(id, t.title, t.description, t.projectId, t.assigneeId, t.status.GetOr(Todo), t.dueDate,
         t.priority.GetOr(Medium))
  }

  /** The row inserted for an attendance mark: it has no defaulted column. */
  function AttendanceRow(id: nat, a: NewAttendance): (r: Attendance)
    ensures r.id == id && r.userId == a.userId && r.date == a.date && r.status == a.status
  {
    Attendance(id, a.userId, a.date, a.status)
  }

  /** The row inserted for a budget item: it has no defaulted column. */
  function BudgetItemRow(id: nat, b: NewBudgetItem): (r: BudgetItem)
    ensures r.id == id && r.projectId == b.projectId && r.description == b.description
    ensures r.amount == b.amount && r.kind == b.kind && r.category == b.category
    ensures r.date == b.date && r.createdBy == b.createdBy
  {
    BudgetItem(id, b.projectId, b.description, b.amount, b.kind, b.category, b.date, b.createdBy)
  }

  /** The row inserted for a milestone: status defaults to pending. */
  function MilestoneRow(id: nat, m: NewMilestone): (r: Milestone)
    ensures r.id == id && r.projectId == m.projectId && r.title == m.title
    ensures r.description == m.description && r.dueDate == m.dueDate
    ensures r.completionDate == m.completionDate
    ensures r.status == (if m.status.Some? then m.status.value else Pending)
  {
    Milestone(id, m.projectId, m.title, m.description, m.dueDate, m.status.GetOr(Pending), m.completionDate)
  }

  /** The row inserted for a report: created-at defaults to `now`, attachments to []. */
  function ReportRow(id: nat, r: NewReport, now: Instant): (row: Report)
    ensures row.id == id && row.projectId == r.projectId && row.title == r.title
    ensures row.content == r.content && row.kind == r.kind && row.createdBy == r.createdBy
    ensures row.createdAt == (if r.createdAt.Some? then r.createdAt.value else now)
    ensures row.attachments == (if r.attachments.Some? then r.attachments.value else [])
  {
    Report(id, r.projectId, r.title, r.content, r.kind, r.createdAt.GetOr(now), r.createdBy,
           r.attachments.GetOr([]))
  }

  // --------------------------------------------------------- registration

  /** The registration form: the user's columns, a confirmation and a role string. */
  datatype Registration = Registration(username: string, password: string, confirmPassword: string,
                                       role: string, name: string)

  /** What the registration schema reports, each on its own path. */
  datatype Issue = InvalidRole | PasswordMismatch {
    function Path(): seq<string> {
      match this
      case InvalidRole => ["role"]
      case PasswordMismatch => ["confirmPassword"]
    }
  }

  /**
   * `insertUserSchema.parse`: the role must be one of the three roles; only a
   * well-formed object reaches the refinement, which demands that the password
   * equal its confirmation. The confirmation is not a column and is dropped.
   */
  function ValidateRegistration(input: Registration): (r: Result<NewUser, Issue>)
    ensures r.Success? <==> ParseRole(input.role).Some? && input.password == input.confirmPassword
    ensures r.Success? ==>
      r.value.username == input.username && r.value.password == input.password &&
      r.value.name == input.name && r.value.role.Some? && RoleName(r.value.role.value) == input.role
    ensures ParseRole(input.role).None? ==> r == Failure(InvalidRole)
    ensures ParseRole(input.role).Some? && input.password != input.confirmPassword ==>
      r == Failure(PasswordMismatch) && r.error.Path() == ["confirmPassword"]
  {
    match ParseRole(input.role)
    case None => Failure(InvalidRole)
    case Some(role) =>
      if input.password == input.confirmPassword
      then Success(NewUser(input.username, input.password, Some(role), input.name))
      else Failure(PasswordMismatch)
  }

  /** The message the refinement attaches to a mismatch. */
  const PasswordMismatchMessage: string := "Passwords don't match"

  // ---------------------------------------------------------------- login

  datatype Credentials = Credentials(username: string, password: string)

  /**
   * `loginSchema.parse` over a JSON object of string fields: username and
   * password are required; every other field is stripped. A failure lists the
   * missing fields in declaration order.
   */
  function ParseLogin(body: map<string, string>): (r: Result<Credentials, seq<string>>)
    ensures r.Success? <==> "username" in body && "password" in body
    ensures r.Success? ==> r.value.username == body["username"] && r.value.password == body["password"]
    ensures r.Failure? ==>
      (forall f :: f in r.error <==> f in ["username", "password"] && f !in body) && |r.error| > 0
  {
    if "username" in body && "password" in body
    then Success(Credentials(body["username"], body["password"]))
    else
      Failure((if "username" in body then [] else ["username"]) +
              (if "password" in body then [] else ["password"]))
  }

  /** Fields other than username and password do not affect the login. */
  lemma ParseLoginIgnoresOtherFields(a: map<string, string>, b: map<string, string>)
    requires "username" in a <==> "username" in b
    requires "password" in a <==> "password" in b
    requires "username" in a ==> a["username"] == b["username"]
    requires "password" in a ==> a["password"] == b["password"]
    ensures ParseLogin(a) == ParseLogin(b)
  {
  }
}
