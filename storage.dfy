/**
 * The entity store: the seven tables held in memory, one `seq` of rows each,
 * with one id counter per table standing for its `serial` column.
 *
 * Inserts append the row the schema's defaults produce and return it with the
 * next id. The two status updates overwrite the named columns of the row with
 * the given id. Reads are selections over a table, in insertion order. An
 * insert the database would reject (a duplicate username, a money value outside
 * decimal(10,2)) returns None and changes nothing.
 */
module Storage {
  import opened Wrappers
  import opened Schema
  import opened Tables
  import opened Budget

  // ------------------------------------------------------------ row keys

  function UserKey(u: User): nat { u.id }
  function ProjectKey(p: Project): nat { p.id }
  function TaskKey(t: Task): nat { t.id }
  function AttendanceKey(a: Attendance): nat { a.id }
  function BudgetItemKey(b: BudgetItem): nat { b.id }
  function MilestoneKey(m: Milestone): nat { m.id }
  function ReportKey(r: Report): nat { r.id }

  /** Ids are generated in increasing order, from 1, and all are below the counter. */
  ghost predicate KeysBelow<T>(rows: seq<T>, key: T -> nat, next: nat) {
    (forall i, j :: 0 <= i < j < |rows| ==> key(rows[i]) < key(rows[j])) &&
    (forall i :: 0 <= i < |rows| ==> 1 <= key(rows[i]) < next)
  }

  lemma KeysBelowAppend<T>(rows: seq<T>, key: T -> nat, next: nat, x: T)
    requires KeysBelow(rows, key, next) && key(x) == next && next >= 1
    ensures KeysBelow(rows + [x], key, next + 1)
  {
  }

  lemma KeysBelowSameKeys<T>(rows: seq<T>, rows': seq<T>, key: T -> nat, next: nat)
    requires KeysBelow(rows, key, next)
    requires |rows'| == |rows| && forall i :: 0 <= i < |rows| ==> key(rows'[i]) == key(rows[i])
    ensures KeysBelow(rows', key, next)
  {
  }

  // ------------------------------------------------- table constraints

  ghost predicate UsersOk(users: seq<User>, next: nat) {
    && KeysBelow(users, UserKey, next) && next >= 1
    && (forall i, j :: 0 <= i < j < |users| ==> users[i].username != users[j].username)
  }

  ghost predicate ProjectsOk(projects: seq<Project>, next: nat) {
    && KeysBelow(projects, ProjectKey, next) && next >= 1
    && (forall i :: 0 <= i < |projects| ==> FitsDecimal(projects[i].budget))
  }

  ghost predicate BudgetItemsOk(items: seq<BudgetItem>, next: nat) {
    && KeysBelow(items, BudgetItemKey, next) && next >= 1
    && (forall i :: 0 <= i < |items| ==> FitsDecimal(items[i].amount))
  }

  /** The table constraints: serial primary keys, unique usernames, decimal(10,2) money. */
  ghost predicate TablesOk(users: seq<User>, nextUserId: nat, projects: seq<Project>, nextProjectId: nat,
                           tasks: seq<Task>, nextTaskId: nat, attendance: seq<Attendance>, nextAttendanceId: nat,
                           budgetItems: seq<BudgetItem>, nextBudgetItemId: nat,
                           milestones: seq<Milestone>, nextMilestoneId: nat,
                           reports: seq<Report>, nextReportId: nat)
  {
    && UsersOk(users, nextUserId)
    && ProjectsOk(projects, nextProjectId)
    && KeysBelow(tasks, TaskKey, nextTaskId) && nextTaskId >= 1
    && KeysBelow(attendance, AttendanceKey, nextAttendanceId) && nextAttendanceId >= 1
    && BudgetItemsOk(budgetItems, nextBudgetItemId)
    && KeysBelow(milestones, MilestoneKey, nextMilestoneId) && nextMilestoneId >= 1
    && KeysBelow(reports, ReportKey, nextReportId) && nextReportId >= 1
  }

  // ------------------------------------------------------------ selections

  function UserWithId(id: int): User -> bool { (u: User) => u.id == id }
  function UserNamed(username: string): User -> bool { (u: User) => u.username == username }
  function ProjectWithId(id: int): Project -> bool { (p: Project) => p.id == id }
  function TaskWithId(id: int): Task -> bool { (t: Task) => t.id == id }
  function MilestoneWithId(id: int): Milestone -> bool { (m: Milestone) => m.id == id }
  function ReportWithId(id: int): Report -> bool { (r: Report) => r.id == id }
  function AttendanceOf(userId: int): Attendance -> bool { (a: Attendance) => a.userId == Some(userId) }

  // `WHERE project_id = $1`: a row whose project is NULL never matches.
  function TaskInProject(pid: int): Task -> bool { (t: Task) => t.projectId == Some(pid) }
  function MilestoneInProject(pid: int): Milestone -> bool { (m: Milestone) => m.projectId == Some(pid) }
  function ReportInProject(pid: int): Report -> bool { (r: Report) => r.projectId == Some(pid) }

  /** The date filter applies only when both bounds are given; both bounds are inclusive. */
  predicate InWindow(date: Day, startDate: Option<Day>, endDate: Option<Day>) {
    startDate.Some? && endDate.Some? ==> startDate.value <= date <= endDate.value
  }

  function BudgetSelector(pid: int, startDate: Option<Day>, endDate: Option<Day>): BudgetItem -> bool {
    (b: BudgetItem) => b.projectId == Some(pid) && InWindow(b.date, startDate, endDate)
  }

  /** Appending a row to a table can only reveal it to a lookup that found nothing before. */
  lemma FirstAppendOne<T(!new)>(s: seq<T>, x: T, p: T -> bool)
    ensures First(s + [x], p) == if First(s, p).Some? then First(s, p) else if p(x) then Some(x) else None
  {
    FilterAppendOne(s, x, p);
    if First(s, p).None? {
      assert |Filter(s, p)| == 0;
    }
  }

  // ----------------------------------------------------------- updates

  /** `UPDATE tasks SET status = s WHERE id = id`. */
  function SetTaskStatus(ts: seq<Task>, id: int, s: TaskStatus): (r: seq<Task>)
    ensures |r| == |ts|
    ensures forall i :: 0 <= i < |ts| ==> r[i].id == ts[i].id && r[i].(status := ts[i].status) == ts[i]
    ensures forall i :: 0 <= i < |ts| && ts[i].id == id ==> r[i].status == s
    ensures forall i :: 0 <= i < |ts| && ts[i].id != id ==> r[i] == ts[i]
  {
    seq(|ts|, i requires 0 <= i < |ts| => if ts[i].id == id then ts[i].(status := s) else ts[i])
  }

  /**
   * `UPDATE milestones SET status = s, completion_date = d WHERE id = id`, where
   * an absent completion date is dropped from the SET list and the column keeps
   * its value.
   */
  function SetMilestoneStatus(ms: seq<Milestone>, id: int, s: MilestoneStatus, completionDate: Option<Day>)
    : (r: seq<Milestone>)
    ensures |r| == |ms|
    ensures forall i :: 0 <= i < |ms| ==>
      r[i].id == ms[i].id && r[i].(status := ms[i].status, completionDate := ms[i].completionDate) == ms[i]
    ensures forall i :: 0 <= i < |ms| && ms[i].id == id ==>
      r[i].status == s &&
      r[i].completionDate == (if completionDate.Some? then completionDate else ms[i].completionDate)
    ensures forall i :: 0 <= i < |ms| && ms[i].id != id ==> r[i] == ms[i]
  {
    seq(|ms|, i requires 0 <= i < |ms| =>
      if ms[i].id != id then ms[i]
      else if completionDate.Some? then ms[i].(status := s, completionDate := completionDate)
      else ms[i].(status := s))
  }

  /** An update whose id matches no row changes nothing. */
  lemma UpdateOfAbsentIdIsIdentity(ts: seq<Task>, ms: seq<Milestone>, id: int, s: TaskStatus,
                                   ms': MilestoneStatus, d: Option<Day>)
    requires forall i :: 0 <= i < |ts| ==> ts[i].id != id
    requires forall i :: 0 <= i < |ms| ==> ms[i].id != id
    ensures SetTaskStatus(ts, id, s) == ts
    ensures SetMilestoneStatus(ms, id, ms', d) == ms
  {
  }

  /** Appending a row adds it to exactly the per-project selections it belongs to. */
  lemma SelectionsAfterAppend<T(!new)>(rows: seq<T>, x: T, select: int -> (T -> bool))
    ensures forall pid :: (Filter(rows + [x], select(pid)) ==
      if select(pid)(x) then Filter(rows, select(pid)) + [x] else Filter(rows, select(pid)))
  {
    forall pid: int ensures Filter(rows + [x], select(pid)) ==
      if select(pid)(x) then Filter(rows, select(pid)) + [x] else Filter(rows, select(pid))
    {
      FilterAppendOne(rows, x, select(pid));
    }
  }

  /** Inserting a budget item whose amount fits keeps the table's constraints. */
  lemma AppendBudgetItem(items: seq<BudgetItem>, next: nat, b: NewBudgetItem)
    requires KeysBelow(items, BudgetItemKey, next) && next >= 1
    requires forall i :: 0 <= i < |items| ==> FitsDecimal(items[i].amount)
    requires FitsDecimal(b.amount)
    ensures KeysBelow(items + [BudgetItemRow(next, b)], BudgetItemKey, next + 1)
    ensures forall i :: 0 <= i < |items + [BudgetItemRow(next, b)]| ==>
      FitsDecimal((items + [BudgetItemRow(next, b)])[i].amount)
    ensures forall i :: 0 <= i < |items| ==> items[i].id != next
    ensures forall pid :: (Filter(items + [BudgetItemRow(next, b)], BudgetSelector(pid, None, None)) ==
      if b.projectId == Some(pid) then Filter(items, BudgetSelector(pid, None, None)) + [BudgetItemRow(next, b)]
      else Filter(items, BudgetSelector(pid, None, None)))
  {
    var row := BudgetItemRow(next, b);
    KeysBelowAppend(items, BudgetItemKey, next, row);
    forall pid: int ensures Filter(items + [row], BudgetSelector(pid, None, None)) ==
      if b.projectId == Some(pid) then Filter(items, BudgetSelector(pid, None, None)) + [row]
      else Filter(items, BudgetSelector(pid, None, None))
    {
      FilterAppendOne(items, row, BudgetSelector(pid, None, None));
    }
  }

  /** Inserting a project whose budget fits keeps the table's constraints and finds the new row. */
  lemma AppendProject(projects: seq<Project>, next: nat, p: NewProject)
    requires KeysBelow(projects, ProjectKey, next) && next >= 1
    requires forall i :: 0 <= i < |projects| ==> FitsDecimal(projects[i].budget)
    requires FitsDecimal(ProjectRow(next, p).budget)
    ensures KeysBelow(projects + [ProjectRow(next, p)], ProjectKey, next + 1)
    ensures forall i :: 0 <= i < |projects + [ProjectRow(next, p)]| ==>
      FitsDecimal((projects + [ProjectRow(next, p)])[i].budget)
    ensures forall i :: 0 <= i < |projects| ==> projects[i].id != next
    ensures First(projects + [ProjectRow(next, p)], ProjectWithId(next)) == Some(ProjectRow(next, p))
  {
    var row := ProjectRow(next, p);
    KeysBelowAppend(projects, ProjectKey, next, row);
    FirstOfUnique(projects + [row], ProjectWithId(next), |projects|);
  }

  /** Inserting a user with a new name keeps the users table's constraints and finds the new row. */
  lemma AppendUser(users: seq<User>, next: nat, u: NewUser)
    requires KeysBelow(users, UserKey, next) && next >= 1
    requires forall i, j :: 0 <= i < j < |users| ==> users[i].username != users[j].username
    requires forall i :: 0 <= i < |users| ==> users[i].username != u.username
    ensures KeysBelow(users + [UserRow(next, u)], UserKey, next + 1)
    ensures forall i, j :: 0 <= i < j < |users + [UserRow(next, u)]| ==>
      (users + [UserRow(next, u)])[i].username != (users + [UserRow(next, u)])[j].username
    ensures forall i :: 0 <= i < |users| ==> users[i].id != next
    ensures First(users + [UserRow(next, u)], UserNamed(u.username)) == Some(UserRow(next, u))
    ensures First(users + [UserRow(next, u)], UserWithId(next)) == Some(UserRow(next, u))
  {
    var row := UserRow(next, u);
    var users' := users + [row];
    KeysBelowAppend(users, UserKey, next, row);
    FirstOfUnique(users', UserNamed(u.username), |users'| - 1);
    FirstOfUnique(users', UserWithId(next), |users'| - 1);
  }

  /** What `UPDATE tasks ... RETURNING` yields: the one row with the id, after the update. */
  lemma UpdatedTask(ts: seq<Task>, id: int, s: TaskStatus, next: nat)
    requires KeysBelow(ts, TaskKey, next)
    ensures KeysBelow(SetTaskStatus(ts, id, s), TaskKey, next)
    ensures First(SetTaskStatus(ts, id, s), TaskWithId(id)).None? <==> forall i :: 0 <= i < |ts| ==> ts[i].id != id
    ensures First(SetTaskStatus(ts, id, s), TaskWithId(id)).None? ==> SetTaskStatus(ts, id, s) == ts
    ensures First(SetTaskStatus(ts, id, s), TaskWithId(id)).Some? ==>
      exists i :: (0 <= i < |ts| && ts[i].id == id &&
        First(SetTaskStatus(ts, id, s), TaskWithId(id)).value == ts[i].(status := s) &&
        SetTaskStatus(ts, id, s)[i] == ts[i].(status := s))
  {
    var ts' := SetTaskStatus(ts, id, s);
    KeysBelowSameKeys(ts, ts', TaskKey, next);
    var r := First(ts', TaskWithId(id));
    if r.Some? {
      var i :| 0 <= i < |ts'| && ts'[i] == r.value && ts'[i].id == id &&
        forall j :: 0 <= j < i ==> ts'[j].id != id;
      assert ts[i].id == id;
    }
  }

  /** What `UPDATE milestones ... RETURNING` yields: the one row with the id, after the update. */
  lemma UpdatedMilestone(ms: seq<Milestone>, id: int, s: MilestoneStatus, d: Option<Day>, next: nat)
    requires KeysBelow(ms, MilestoneKey, next)
    ensures KeysBelow(SetMilestoneStatus(ms, id, s, d), MilestoneKey, next)
    ensures First(SetMilestoneStatus(ms, id, s, d), MilestoneWithId(id)).None? <==>
      forall i :: 0 <= i < |ms| ==> ms[i].id != id
    ensures First(SetMilestoneStatus(ms, id, s, d), MilestoneWithId(id)).None? ==>
      SetMilestoneStatus(ms, id, s, d) == ms
    ensures First(SetMilestoneStatus(ms, id, s, d), MilestoneWithId(id)).Some? ==>
      exists i :: (0 <= i < |ms| && ms[i].id == id &&
        First(SetMilestoneStatus(ms, id, s, d), MilestoneWithId(id)).value == SetMilestoneStatus(ms, id, s, d)[i])
  {
    var ms' := SetMilestoneStatus(ms, id, s, d);
    KeysBelowSameKeys(ms, ms', MilestoneKey, next);
    var r := First(ms', MilestoneWithId(id));
    if r.Some? {
      var i :| 0 <= i < |ms'| && ms'[i] == r.value && ms'[i].id == id &&
        forall j :: 0 <= j < i ==> ms'[j].id != id;
      assert ms[i].id == id;
    }
  }

  // -------------------------------------------------------------- store

  class Store {
    var users: seq<User>
    var projects: seq<Project>
    var tasks: seq<Task>
    var attendance: seq<Attendance>
    var budgetItems: seq<BudgetItem>
    var milestones: seq<Milestone>
    var reports: seq<Report>

    var nextUserId: nat
    var nextProjectId: nat
    var nextTaskId: nat
    var nextAttendanceId: nat
    var nextBudgetItemId: nat
    var nextMilestoneId: nat
    var nextReportId: nat

    /** The table constraints: serial primary keys, unique usernames, decimal(10,2) money. */
    ghost predicate Valid()
      reads this
    {
      TablesOk(users, nextUserId, projects, nextProjectId, tasks, nextTaskId, attendance, nextAttendanceId,
               budgetItems, nextBudgetItemId, milestones, nextMilestoneId, reports, nextReportId)
    }

    constructor ()
      ensures Valid()
      ensures users == [] && projects == [] && tasks == [] && attendance == []
      ensures budgetItems == [] && milestones == [] && reports == []
      ensures nextUserId == 1 && nextProjectId == 1 && nextTaskId == 1 && nextAttendanceId == 1
      ensures nextBudgetItemId == 1 && nextMilestoneId == 1 && nextReportId == 1
    {
      users, projects, tasks, attendance := [], [], [], [];
      budgetItems, milestones, reports := [], [], [];
      nextUserId, nextProjectId, nextTaskId, nextAttendanceId := 1, 1, 1, 1;
      nextBudgetItemId, nextMilestoneId, nextReportId := 1, 1, 1;
      new;
      EmptyStoreValid(this);
    }

    // ------------------------------------------------------------ users

    function GetUser(id: int): (r: Option<User>)
      reads this
      ensures r.None? <==> forall i :: 0 <= i < |users| ==> users[i].id != id
      ensures r.Some? ==> r.value in users && r.value.id == id
    {
      First(users, UserWithId(id))
    }

    function GetUserByUsername(username: string): (r: Option<User>)
      reads this
      ensures r.None? <==> forall i :: 0 <= i < |users| ==> users[i].username != username
      ensures r.Some? ==> r.value in users && r.value.username == username
    {
      First(users, UserNamed(username))
    }

    /** `getUsers`: every user row, passwords included. */
    function GetUsers(): seq<User>
      reads this
    {
      users
    }

    method CreateUser(u: NewUser) returns (r: Option<User>)
      requires Valid()
      modifies this`users, this`nextUserId
      ensures Valid()
      ensures r.None? <==> exists i :: 0 <= i < |old(users)| && old(users)[i].username == u.username
      ensures r.None? ==> users == old(users) && nextUserId == old(nextUserId)
      ensures r.Some? ==> r.value == UserRow(old(nextUserId), u) && users == old(users) + [r.value]
      ensures r.Some? ==> nextUserId == old(nextUserId) + 1
      ensures r.Some? ==> forall i :: 0 <= i < |old(users)| ==> old(users)[i].id != r.value.id
      ensures r.Some? ==> GetUserByUsername(u.username) == r && GetUser(r.value.id) == r
    {
      if GetUserByUsername(u.username).Some? {
        return None;
      }
      var row := UserRow(nextUserId, u);
      AppendUser(users, nextUserId, u);
      users := users + [row];
      nextUserId := nextUserId + 1;
      r := Some(row);
    }

    // --------------------------------------------------------- projects

    function GetProjects(): seq<Project>
      reads this
    {
      projects
    }

    function GetProject(id: int): (r: Option<Project>)
      reads this
      ensures r.None? <==> forall i :: 0 <= i < |projects| ==> projects[i].id != id
      ensures r.Some? ==> r.value in projects && r.value.id == id
    {
      First(projects, ProjectWithId(id))
    }

    method CreateProject(p: NewProject) returns (r: Option<Project>)
      requires Valid()
      modifies this`projects, this`nextProjectId
      ensures Valid()
      ensures r.None? <==> !FitsDecimal(ProjectRow(old(nextProjectId), p).budget)
      ensures r.None? ==> projects == old(projects) && nextProjectId == old(nextProjectId)
      ensures r.Some? ==> r.value == ProjectRow(old(nextProjectId), p) && projects == old(projects) + [r.value]
      ensures r.Some? ==> nextProjectId == old(nextProjectId) + 1
      ensures r.Some? ==> forall i :: 0 <= i < |old(projects)| ==> old(projects)[i].id != r.value.id
      ensures r.Some? ==> GetProject(r.value.id) == r
    {
      var row := ProjectRow(nextProjectId, p);
      if !FitsDecimal(row.budget) {
        return None;
      }
      AppendProject(projects, nextProjectId, p);
      projects := projects + [row];
      nextProjectId := nextProjectId + 1;
      r := Some(row);
    }

    // ------------------------------------------------------------ tasks

    function GetTasks(projectId: int): (r: seq<Task>)
      reads this
      ensures forall t :: t in r <==> t in tasks && t.projectId == Some(projectId)
      ensures IsSubsequence(r, tasks)
    {
      FilterIsSubsequence(tasks, TaskInProject(projectId));
      FilterMembers(tasks, TaskInProject(projectId));
      Filter(tasks, TaskInProject(projectId))
    }

    method CreateTask(t: NewTask) returns (r: Task)
      requires Valid()
      modifies this`tasks, this`nextTaskId
      ensures Valid()
      ensures r == TaskRow(old(nextTaskId), t) && tasks == old(tasks) + [r]
      ensures nextTaskId == old(nextTaskId) + 1
      ensures forall i :: 0 <= i < |old(tasks)| ==> old(tasks)[i].id != r.id
      ensures forall pid :: (GetTasks(pid) ==
        if r.projectId == Some(pid) then old(GetTasks(pid)) + [r] else old(GetTasks(pid)))
    {
      r := TaskRow(nextTaskId, t);
      KeysBelowAppend(tasks, TaskKey, nextTaskId, r);
      ghost var before := tasks;
      tasks := tasks + [r];
      nextTaskId := nextTaskId + 1;
      SelectionsAfterAppend(before, r, TaskInProject);
    }

    /** `updateTaskStatus`: overwrite the status of the row with this id, return that row. */
    method UpdateTaskStatus(id: int, status: TaskStatus) returns (r: Option<Task>)
      requires Valid()
      modifies this`tasks
      ensures Valid()
      ensures tasks == SetTaskStatus(old(tasks), id, status)
      ensures r.None? <==> forall i :: 0 <= i < |old(tasks)| ==> old(tasks)[i].id != id
      ensures r.None? ==> tasks == old(tasks)
      ensures r.Some? ==> exists i :: (0 <= i < |old(tasks)| && old(tasks)[i].id == id &&
        r.value == old(tasks)[i].(status := status) && tasks[i] == r.value)
    {
      UpdatedTask(tasks, id, status, nextTaskId);
      tasks := SetTaskStatus(tasks, id, status);
      r := First(tasks, TaskWithId(id));
    }

    // ------------------------------------------------------- attendance

    /** `markAttendance`: always inserts, even when the user already has a mark that day. */
    method MarkAttendance(a: NewAttendance) returns (r: Attendance)
      requires Valid()
      modifies this`attendance, this`nextAttendanceId
      ensures Valid()
      ensures r == AttendanceRow(old(nextAttendanceId), a) && attendance == old(attendance) + [r]
      ensures nextAttendanceId == old(nextAttendanceId) + 1
      ensures forall i :: 0 <= i < |old(attendance)| ==> old(attendance)[i].id != r.id
      ensures forall u: int, d: Instant :: old(GetAttendance(u, d)).Some? ==>
        GetAttendance(u, d) == old(GetAttendance(u, d))
      ensures a.userId.Some? ==> GetAttendance(a.userId.value, a.date).Some?
    {
      r := AttendanceRow(nextAttendanceId, a);
      KeysBelowAppend(attendance, AttendanceKey, nextAttendanceId, r);
      ghost var before := attendance;
      attendance := attendance + [r];
      nextAttendanceId := nextAttendanceId + 1;
      forall u: int | true
        ensures First(attendance, AttendanceOf(u)) ==
          if First(before, AttendanceOf(u)).Some? then First(before, AttendanceOf(u))
          else if AttendanceOf(u)(r) then Some(r) else None
      {
        FirstAppendOne(before, r, AttendanceOf(u));
      }
    }

    /**
     * `getAttendance(userId, date)`: the first mark of the user. The date is
     * accepted and not used.
     */
    function GetAttendance(userId: int, date: Instant): (r: Option<Attendance>)
      reads this
      ensures r.None? <==> forall i :: 0 <= i < |attendance| ==> attendance[i].userId != Some(userId)
      ensures r.Some? ==> exists i :: (0 <= i < |attendance| && attendance[i] == r.value &&
        r.value.userId == Some(userId) &&
        forall j :: 0 <= j < i ==> attendance[j].userId != Some(userId))
    {
      First(attendance, AttendanceOf(userId))
    }

    // ------------------------------------------------------------ budget

    method CreateBudgetItem(b: NewBudgetItem) returns (r: Option<BudgetItem>)
      requires Valid()
      modifies this`budgetItems, this`nextBudgetItemId
      ensures Valid()
      ensures r.None? <==> !FitsDecimal(b.amount)
      ensures r.None? ==> budgetItems == old(budgetItems) && nextBudgetItemId == old(nextBudgetItemId)
      ensures r.Some? ==> r.value == BudgetItemRow(old(nextBudgetItemId), b)
      ensures r.Some? ==> budgetItems == old(budgetItems) + [r.value]
      ensures r.Some? ==> nextBudgetItemId == old(nextBudgetItemId) + 1
      ensures r.Some? ==> forall i :: 0 <= i < |old(budgetItems)| ==> old(budgetItems)[i].id != r.value.id
      ensures r.Some? ==> forall pid :: (GetBudgetItems(pid, None, None) ==
        if b.projectId == Some(pid) then old(GetBudgetItems(pid, None, None)) + [r.value]
        else old(GetBudgetItems(pid, None, None)))
    {
      if !FitsDecimal(b.amount) {
        return None;
      }
      var row := BudgetItemRow(nextBudgetItemId, b);
      AppendBudgetItem(budgetItems, nextBudgetItemId, b);
      budgetItems := budgetItems + [row];
      nextBudgetItemId := nextBudgetItemId + 1;
      r := Some(row);
    }

    /**
     * `getBudgetItems(projectId, startDate?, endDate?)`: the project's items,
     * restricted to the inclusive window when, and only when, both bounds are given.
     */
    function GetBudgetItems(projectId: int, startDate: Option<Day>, endDate: Option<Day>)
      : (r: seq<BudgetItem>)
      reads this
      ensures forall b :: b in r <==>
        b in budgetItems && b.projectId == Some(projectId) &&
        (startDate.Some? && endDate.Some? ==> startDate.value <= b.date <= endDate.value)
      ensures IsSubsequence(r, budgetItems)
    {
      FilterIsSubsequence(budgetItems, BudgetSelector(projectId, startDate, endDate));
      FilterMembers(budgetItems, BudgetSelector(projectId, startDate, endDate));
      Filter(budgetItems, BudgetSelector(projectId, startDate, endDate))
    }

    /** `getProjectBudgetSummary`: the summary of the project's unfiltered items. */
    method GetProjectBudgetSummary(projectId: int) returns (r: Summary)
      ensures r == Summarize(GetBudgetItems(projectId, None, None))
    {
      var items := GetBudgetItems(projectId, None, None);
      r := Summary(0, 0);
      var i := 0;
      while i < |items|
        invariant 0 <= i <= |items|
        invariant r == Summarize(items[..i])
      {
        var item := items[i];
        if item.kind == Income {
          r := r.(allocation := r.allocation + item.amount);
        } else {
          r := r.(spent := r.spent + item.amount);
        }
        assert items[..i + 1][..i] == items[..i];
        i := i + 1;
      }
      assert items[..|items|] == items;
    }

    // -------------------------------------------------------- milestones

    method CreateMilestone(m: NewMilestone) returns (r: Milestone)
      requires Valid()
      modifies this`milestones, this`nextMilestoneId
      ensures Valid()
      ensures r == MilestoneRow(old(nextMilestoneId), m) && milestones == old(milestones) + [r]
      ensures nextMilestoneId == old(nextMilestoneId) + 1
      ensures forall i :: 0 <= i < |old(milestones)| ==> old(milestones)[i].id != r.id
      ensures forall pid :: (GetMilestones(pid) ==
        if r.projectId == Some(pid) then old(GetMilestones(pid)) + [r] else old(GetMilestones(pid)))
    {
      r := MilestoneRow(nextMilestoneId, m);
      KeysBelowAppend(milestones, MilestoneKey, nextMilestoneId, r);
      ghost var before := milestones;
      milestones := milestones + [r];
      nextMilestoneId := nextMilestoneId + 1;
      SelectionsAfterAppend(before, r, MilestoneInProject);
    }

    function GetMilestones(projectId: int): (r: seq<Milestone>)
      reads this
      ensures forall m :: m in r <==> m in milestones && m.projectId == Some(projectId)
      ensures IsSubsequence(r, milestones)
    {
      FilterIsSubsequence(milestones, MilestoneInProject(projectId));
      FilterMembers(milestones, MilestoneInProject(projectId));
      Filter(milestones, MilestoneInProject(projectId))
    }

    /** `updateMilestoneStatus`: overwrite status (and a given completion date) of the row with this id. */
    method UpdateMilestoneStatus(id: int, status: MilestoneStatus, completionDate: Option<Day>)
      returns (r: Option<Milestone>)
      requires Valid()
      modifies this`milestones
      ensures Valid()
      ensures milestones == SetMilestoneStatus(old(milestones), id, status, completionDate)
      ensures r.None? <==> forall i :: 0 <= i < |old(milestones)| ==> old(milestones)[i].id != id
      ensures r.None? ==> milestones == old(milestones)
      ensures r.Some? ==> exists i :: (0 <= i < |old(milestones)| && old(milestones)[i].id == id &&
        milestones[i] == r.value && r.value.status == status &&
        r.value.completionDate == (if completionDate.Some? then completionDate else old(milestones)[i].completionDate))
    {
      UpdatedMilestone(milestones, id, status, completionDate, nextMilestoneId);
      milestones := SetMilestoneStatus(milestones, id, status, completionDate);
      r := First(milestones, MilestoneWithId(id));
    }

    // ----------------------------------------------------------- reports

    method CreateReport(rep: NewReport, now: Instant) returns (r: Report)
      requires Valid()
      modifies this`reports, this`nextReportId
      ensures Valid()
      ensures r == ReportRow(old(nextReportId), rep, now) && reports == old(reports) + [r]
      ensures nextReportId == old(nextReportId) + 1
      ensures forall i :: 0 <= i < |old(reports)| ==> old(reports)[i].id != r.id
      ensures GetReport(r.id) == Some(r)
      ensures forall pid :: (GetReports(pid) ==
        if r.projectId == Some(pid) then old(GetReports(pid)) + [r] else old(GetReports(pid)))
    {
      r := ReportRow(nextReportId, rep, now);
      KeysBelowAppend(reports, ReportKey, nextReportId, r);
      ghost var before := reports;
      reports := reports + [r];
      nextReportId := nextReportId + 1;
      FirstOfUnique(reports, ReportWithId(r.id), |reports| - 1);
      SelectionsAfterAppend(before, r, ReportInProject);
    }

    function GetReports(projectId: int): (r: seq<Report>)
      reads this
      ensures forall x :: x in r <==> x in reports && x.projectId == Some(projectId)
      ensures IsSubsequence(r, reports)
    {
      FilterIsSubsequence(reports, ReportInProject(projectId));
      FilterMembers(reports, ReportInProject(projectId));
      Filter(reports, ReportInProject(projectId))
    }

    function GetReport(id: int): (r: Option<Report>)
      reads this
      ensures r.None? <==> forall i :: 0 <= i < |reports| ==> reports[i].id != id
      ensures r.Some? ==> r.value in reports && r.value.id == id
    {
      First(reports, ReportWithId(id))
    }
  }

  // ------------------------------------------------- lemmas about reads

  /** Empty tables with every counter at 1 meet the constraints. */
  lemma EmptyStoreValid(s: Store)
    requires s.users == [] && s.projects == [] && s.tasks == [] && s.attendance == []
    requires s.budgetItems == [] && s.milestones == [] && s.reports == []
    requires s.nextUserId == 1 && s.nextProjectId == 1 && s.nextTaskId == 1 && s.nextAttendanceId == 1
    requires s.nextBudgetItemId == 1 && s.nextMilestoneId == 1 && s.nextReportId == 1
    ensures s.Valid()
  {
  }

  /** The date handed to `getAttendance` never changes its answer. */
  lemma GetAttendanceIgnoresDate(s: Store, userId: int, d1: Instant, d2: Instant)
    ensures s.GetAttendance(userId, d1) == s.GetAttendance(userId, d2)
  {
  }

  /** With a bound missing there is no date filter at all. */
  lemma BudgetWindowNeedsBothBounds(s: Store, projectId: int, startDate: Option<Day>, endDate: Option<Day>)
    requires startDate.None? || endDate.None?
    ensures s.GetBudgetItems(projectId, startDate, endDate) == s.GetBudgetItems(projectId, None, None)
  {
    FilterSame(s.budgetItems, BudgetSelector(projectId, startDate, endDate), BudgetSelector(projectId, None, None));
  }

  /** A date window only removes items from the project's full list, keeping their order. */
  lemma {:induction false} BudgetWindowNarrows(s: Store, projectId: int, startDate: Day, endDate: Day)
    ensures IsSubsequence(s.GetBudgetItems(projectId, Some(startDate), Some(endDate)),
                          s.GetBudgetItems(projectId, None, None))
  {
    WindowIsSubsequence(s.budgetItems, projectId, startDate, endDate);
  }

  lemma {:induction false} WindowIsSubsequence(items: seq<BudgetItem>, projectId: int, startDate: Day, endDate: Day)
    ensures IsSubsequence(Filter(items, BudgetSelector(projectId, Some(startDate), Some(endDate))),
                          Filter(items, BudgetSelector(projectId, None, None)))
    decreases |items|
  {
    var p, q := BudgetSelector(projectId, Some(startDate), Some(endDate)), BudgetSelector(projectId, None, None);
    if |items| > 0 {
      WindowIsSubsequence(items[1..], projectId, startDate, endDate);
      var fp, fq := Filter(items, p), Filter(items, q);
      if p(items[0]) {
        assert fp == [items[0]] + Filter(items[1..], p);
        assert fq == [items[0]] + Filter(items[1..], q);
        assert fp[1..] == Filter(items[1..], p) && fq[1..] == Filter(items[1..], q);
      } else if q(items[0]) {
        assert fp == Filter(items[1..], p);
        assert fq == [items[0]] + Filter(items[1..], q);
        assert fq[1..] == Filter(items[1..], q);
        if |fp| > 0 {
          // the window excludes this item, so the first windowed item is a later one
          assert p(fp[0]) && fp[0] != fq[0];
        }
      } else {
        assert fp == Filter(items[1..], p);
        assert fq == Filter(items[1..], q);
      }
    }
  }
}
