/** The per-employee figures of src/components/Dashboards/ManagerDashboard.tsx:
    which users count as employees, who is assigned to a project, which
    projects an employee is assigned to, and their rounded average progress.
    Progress percentages are integers; `Math.round` of a quotient of two
    integers is computed exactly, as integer division. */
module ManagerDashboard {
  import opened Records
  import opened Sequences

  predicate IsEmployee(u: User) {
    u.role == Employee
  }

  /** `employees.filter(emp => emp.role === 'employee')`, which feeds both the
      employee dropdown and the employee table: every user whose role is
      employee, as often as listed, and nobody else. */
  function EmployeesOnly(users: seq<User>): (r: seq<User>)
    ensures forall u :: multiset(r)[u] == if u.role == Employee then multiset(users)[u] else 0
    ensures forall i :: 0 <= i < |r| ==> r[i].role == Employee
  {
    Filter(users, IsEmployee)
  }

  function AssignedTo(project: Project): User -> bool {
    (u: User) => u.id in project.assigned_employees
  }

  function Name(u: User): string {
    u.name
  }

  /** The names shown in a project's row: the names of the listed users
      that are assigned to the project. */
  function AssignedEmployeeNames(users: seq<User>, project: Project): (names: seq<string>)
    ensures |names| <= |users|
  {
    Map(Filter(users, AssignedTo(project)), Name)
  }

  /** A name is shown exactly when it belongs to a listed user whose id the
      project's `assigned_employees` holds. */
  lemma AssignedNamesMembership(users: seq<User>, project: Project)
    ensures forall j :: 0 <= j < |users| && users[j].id in project.assigned_employees ==>
                          users[j].name in AssignedEmployeeNames(users, project)
    ensures forall name :: name in AssignedEmployeeNames(users, project) ==>
              exists j :: 0 <= j < |users| && users[j].id in project.assigned_employees &&
                          users[j].name == name
  {
    var chosen := Filter(users, AssignedTo(project));
    var names := AssignedEmployeeNames(users, project);
    forall j | 0 <= j < |users| && users[j].id in project.assigned_employees
      ensures users[j].name in names
    {
      assert multiset(chosen)[users[j]] == multiset(users)[users[j]] > 0;
      var k :| 0 <= k < |chosen| && chosen[k] == users[j];
      assert names[k] == users[j].name;
    }
    forall name | name in names
      ensures exists j :: 0 <= j < |users| && users[j].id in project.assigned_employees &&
                          users[j].name == name
    {
      var i :| 0 <= i < |names| && names[i] == name;
      assert chosen[i] in multiset(chosen);
      assert chosen[i] in multiset(users);
      var j :| 0 <= j < |users| && users[j] == chosen[i];
    }
  }

  /** The names keep the users' order: listing one more user appends that
      user's name exactly when the user is assigned to the project. */
  lemma AssignedNamesInOrder(users: seq<User>, project: Project, i: int)
    requires 0 <= i < |users|
    ensures AssignedEmployeeNames(users[..i + 1], project) ==
            AssignedEmployeeNames(users[..i], project) +
            (if users[i].id in project.assigned_employees then [users[i].name] else [])
  {
    FilterSnoc(users, i, AssignedTo(project));
    var before := Filter(users[..i], AssignedTo(project));
    var tail := if users[i].id in project.assigned_employees then [users[i]] else [];
    MapAppend(before, tail, Name);
  }

  /** `projects.filter(p => p.assigned_employees.includes(employee.id))`:
      exactly the projects whose assignment list holds the employee. */
  function AssignedProjects(projects: seq<Project>, employeeId: Id): (r: seq<Project>)
    ensures forall p :: multiset(r)[p] ==
              if employeeId in p.assigned_employees then multiset(projects)[p] else 0
    ensures forall i :: 0 <= i < |r| ==> employeeId in r[i].assigned_employees
  {
    Filter(projects, (p: Project) => employeeId in p.assigned_employees)
  }

  /** `ps.reduce((sum, p) => sum + p.progress_percentage, 0)`, folded from the left. */
  function SumProgress(ps: seq<Project>): int {
    if ps == [] then 0 else SumProgress(ps[..|ps| - 1]) + ps[|ps| - 1].progress_percentage
  }

  /** Adding from the front gives the same total as the left fold. */
  lemma {:induction false} SumFromFront(ps: seq<Project>)
    requires ps != []
    ensures SumProgress(ps) == ps[0].progress_percentage + SumProgress(ps[1..])
  {
    var init := ps[..|ps| - 1];
    if init == [] {
      assert ps[1..] == [];
    } else {
      SumFromFront(init);
      assert init[1..] == ps[1..][..|ps[1..]| - 1];
      assert ps[1..][|ps[1..]| - 1] == ps[|ps| - 1];
    }
  }

  /** Every progress value in `ps` lies in `[lo, hi]`. */
  ghost predicate ProgressWithin(ps: seq<Project>, lo: int, hi: int) {
    forall i :: 0 <= i < |ps| ==> lo <= ps[i].progress_percentage <= hi
  }

  /** The sum of `n` values within `[lo, hi]` lies within `[n * lo, n * hi]`. */
  lemma {:induction false} SumWithin(ps: seq<Project>, lo: int, hi: int)
    requires ProgressWithin(ps, lo, hi)
    ensures |ps| * lo <= SumProgress(ps) <= |ps| * hi
  {
    if ps != [] {
      var init := ps[..|ps| - 1];
      assert ProgressWithin(init, lo, hi) by {
        forall i | 0 <= i < |init| ensures lo <= init[i].progress_percentage <= hi {
          assert init[i] == ps[i];
        }
      }
      SumWithin(init, lo, hi);
      assert |ps| * lo == |init| * lo + lo;
      assert |ps| * hi == |init| * hi + hi;
    }
  }

  /** `Math.round(s / n)` for integers with `n > 0`: the nearest integer to
      `s / n`, halves rounded up, written exactly as `(2s + n) div 2n`. */
  function RoundHalfUp(s: int, n: int): (r: int)
    requires n > 0
    ensures n * (2 * r - 1) <= 2 * s < n * (2 * r + 1)
  {
    var r := (2 * s + n) / (2 * n);
    var m := (2 * s + n) % (2 * n);
    assert 2 * s + n == 2 * n * r + m && 0 <= m < 2 * n;
    assert n * (2 * r - 1) == 2 * n * r - n;
    assert n * (2 * r + 1) == 2 * n * r + n;
    r
  }

  /** The rounded mean is exact on exact quotients. */
  lemma RoundExact(k: int, n: int)
    requires n > 0
    ensures RoundHalfUp(n * k, n) == k
  {
    var r := RoundHalfUp(n * k, n);
    Twice(n, k);
    MulCancel(n, 2 * r - 1, 2 * k);
    MulCancel(n, 2 * k, 2 * r + 1);
  }

  lemma Twice(n: int, x: int)
    ensures n * (2 * x) == 2 * (n * x)
  {
  }

  /** A positive factor can be cancelled from both sides of an inequality. */
  lemma MulCancel(n: int, a: int, b: int)
    requires n > 0 && n * a <= n * b
    ensures a <= b
  {
  }

  /** The `avgProgress` of one employee row: 0 with no assigned projects,
      otherwise the mean progress rounded half up. */
  function AverageProgress(ps: seq<Project>): (avg: int)
    ensures ps == [] ==> avg == 0
    ensures ps != [] ==> |ps| * (2 * avg - 1) <= 2 * SumProgress(ps) < |ps| * (2 * avg + 1)
  {
    if |ps| > 0 then RoundHalfUp(SumProgress(ps), |ps|) else 0
  }

  /** The rounded mean lies between the least and the greatest progress. */
  lemma AverageWithin(ps: seq<Project>, lo: int, hi: int)
    requires ps != [] && ProgressWithin(ps, lo, hi)
    ensures lo <= AverageProgress(ps) <= hi
  {
    var n, avg, sum := |ps|, AverageProgress(ps), SumProgress(ps);
    SumWithin(ps, lo, hi);
    assert n * (2 * avg - 1) <= 2 * sum < n * (2 * avg + 1);
    Twice(n, hi);
    Twice(n, lo);
    MulCancel(n, 2 * avg - 1, 2 * hi);
    MulCancel(n, 2 * lo, 2 * avg + 1);
  }

  /** One row of the employee table. */
  datatype EmployeeRow = EmployeeRow(employee: User, assignedProjects: seq<Project>, average: int)

  function RowOf(projects: seq<Project>): User -> EmployeeRow {
    (u: User) =>
      var own := AssignedProjects(projects, u.id);
      EmployeeRow(u, own, AverageProgress(own))
  }

  /** The employee table: one row per employee, in listing order, with the
      employee's assigned projects and their rounded average progress. */
  function EmployeeRows(users: seq<User>, projects: seq<Project>): (rows: seq<EmployeeRow>)
    ensures |rows| == |EmployeesOnly(users)|
    ensures forall i :: 0 <= i < |rows| ==>
              rows[i].employee == EmployeesOnly(users)[i] && rows[i].employee.role == Employee &&
              rows[i].assignedProjects == AssignedProjects(projects, rows[i].employee.id) &&
              rows[i].average == AverageProgress(rows[i].assignedProjects)
  {
    Map(EmployeesOnly(users), RowOf(projects))
  }

  /** With every project's progress in `[0, 100]`, every row shows an average
      in `[0, 100]`, and 0 for an employee without projects. */
  lemma EmployeeRowsInRange(users: seq<User>, projects: seq<Project>)
    requires ProgressWithin(projects, 0, 100)
    ensures forall row :: row in EmployeeRows(users, projects) ==>
              0 <= row.average <= 100 && (row.assignedProjects == [] ==> row.average == 0)
  {
    var rows := EmployeeRows(users, projects);
    forall row | row in rows
      ensures 0 <= row.average <= 100 && (row.assignedProjects == [] ==> row.average == 0)
    {
      var i :| 0 <= i < |rows| && rows[i] == row;
      var own := row.assignedProjects;
      assert row == RowOf(projects)(EmployeesOnly(users)[i]);
      if own != [] {
        assert ProgressWithin(own, 0, 100) by {
          forall k | 0 <= k < |own| ensures 0 <= own[k].progress_percentage <= 100 {
            assert own[k] in multiset(own);
            assert own[k] in multiset(projects);
            var j :| 0 <= j < |projects| && projects[j] == own[k];
          }
        }
        AverageWithin(own, 0, 100);
      }
    }
  }
}
