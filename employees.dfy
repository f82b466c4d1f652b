/** The staff roster (js/employees/employees.js): employees with a generated
 *  `NV###` code, a role among five, a salary and an active/inactive status, with
 *  the guards that keep at least one admin on the roster. */
module Employees {
  import opened Common

  datatype Status = Active | Inactive

  datatype Employee = Employee(
    id: string,
    code: string,
    name: string,
    phone: string,
    email: string,          // "" when none was given
    role: string,
    salary: real,
    startDate: string,
    status: Status)

  /** The keys of EMPLOYEE_ROLES, in declaration order. */
  const RoleIds: seq<string> := ["admin", "manager", "cashier", "barista", "server"]

  predicate IsRole(role: string)
  {
    role in RoleIds
  }

  /** The fields addEmployee reads; a missing name, phone, email, role or start
   *  date is "". */
  datatype EmployeeInput = EmployeeInput(name: string, phone: string, email: string, role: string, salary: Option<real>,
                                         startDate: string)

  /** The fields updateEmployee spreads over the record; None is a field the
   *  caller left out. */
  datatype EmployeePatch = EmployeePatch(
    name: Option<string>,
    phone: Option<string>,
    email: Option<string>,
    role: Option<string>,
    salary: Option<real>,
    startDate: Option<string>,
    status: Option<Status>)

  datatype EmployeeError =
    | NameRequired
    | PhoneRequired
    | InvalidRole
    | PhoneTaken
    | EmailTaken
    | EmployeeNotFound
    | LastAdmin
    | LastActiveAdmin

  predicate IsActive(e: Employee)
  {
    e.status == Active
  }

  predicate IsAdmin(e: Employee)
  {
    e.role == "admin"
  }

  predicate IsActiveAdmin(e: Employee)
  {
    e.role == "admin" && e.status == Active
  }

  /** Admins of any status: what deleteEmployee counts. */
  function AdminCount(s: seq<Employee>): nat
  {
    Count(s, IsAdmin)
  }

  /** Active admins: what toggleEmployeeStatus counts. */
  function ActiveAdminCount(s: seq<Employee>): nat
  {
    Count(s, IsActiveAdmin)
  }

  predicate IdsUnique(s: seq<Employee>)
  {
    forall i, j :: 0 <= i < j < |s| ==> s[i].id != s[j].id
  }

  function EmployeeIndex(s: seq<Employee>, id: string): (r: int)
    ensures -1 <= r < |s|
    ensures r == -1 <==> forall j :: 0 <= j < |s| ==> s[j].id != id
    ensures 0 <= r ==> s[r].id == id && forall j :: 0 <= j < r ==> s[j].id != id
  {
    FirstIndex(s, (e: Employee) => e.id == id)
  }

  /** getEmployees(activeOnly). */
  function GetEmployees(s: seq<Employee>, activeOnly: bool): (r: seq<Employee>)
    ensures !activeOnly ==> r == s
    ensures activeOnly ==> forall e :: e in r <==> e in s && e.status == Active
  {
    if activeOnly then Filter(s, IsActive) else s
  }

  // ------------------------------------------------------------------
  // Employee codes
  // ------------------------------------------------------------------

  /** `/NV(\d+)/` matches at position i: "NV" followed by at least one digit. */
  predicate CodeMatchAt(code: string, i: int)
  {
    0 <= i && i + 2 < |code| && code[i] == 'N' && code[i + 1] == 'V' && IsDigit(code[i + 2])
  }

  /** The longest run of digits at the start of s (what `\d+` takes greedily). */
  function DigitPrefix(s: string): (r: string)
    ensures |r| <= |s| && r == s[..|r|] && AllDigits(r)
    ensures |r| < |s| ==> !IsDigit(s[|r|])
  {
    if |s| > 0 && IsDigit(s[0]) then [s[0]] + DigitPrefix(s[1..]) else []
  }

  /** The number `code.match(/NV(\d+)/)` yields, parsed with parseInt: the digits
   *  after the leftmost "NV" that is followed by a digit; None without a match. */
  function CodeNumber(code: string): (r: Option<nat>)
    ensures r.None? <==> forall i :: 0 <= i < |code| ==> !CodeMatchAt(code, i)
    decreases |code|
  {
    if |code| < 3 then None
    else if CodeMatchAt(code, 0) then Some(DigitsValue(DigitPrefix(code[2..])))
    else
      assert forall i :: 1 <= i < |code| ==> (CodeMatchAt(code, i) <==> CodeMatchAt(code[1..], i - 1));
      assert forall i :: 0 <= i < |code| - 1 ==> (CodeMatchAt(code[1..], i) <==> CodeMatchAt(code, i + 1));
      CodeNumber(code[1..])
  }

  /** The code generateEmployeeCode builds for a number. */
  function CodeFor(n: nat): string
  {
    "NV" + PadStart(NatToString(n), 3, '0')
  }

  /** The code of number n reads back as n. */
  lemma CodeForRoundTrip(n: nat)
    ensures CodeNumber(CodeFor(n)) == Some(n)
  {
    var digits := PadStart(NatToString(n), 3, '0');
    PaddedNumberRoundTrip(n, 3);
    var code := "NV" + digits;
    assert code == CodeFor(n);
    assert |digits| >= 3;
    assert code[0] == 'N' && code[1] == 'V' && code[2] == digits[0];
    assert CodeMatchAt(code, 0);
    assert code[2..] == digits;
    DigitPrefixOfDigits(digits);
  }

  /** `\d+` takes the whole of a string of digits. */
  lemma {:induction false} DigitPrefixOfDigits(s: string)
    requires AllDigits(s)
    ensures DigitPrefix(s) == s
  {
    if |s| > 0 {
      DigitPrefixOfDigits(s[1..]);
    }
  }

  /** The largest number among the codes, 0 when none matches. */
  function MaxCodeNumber(s: seq<Employee>): (m: nat)
    ensures forall j :: 0 <= j < |s| && CodeNumber(s[j].code).Some? ==> CodeNumber(s[j].code).value <= m
    ensures m == 0 || exists j :: 0 <= j < |s| && CodeNumber(s[j].code) == Some(m)
  {
    if |s| == 0 then 0
    else
      var m := MaxCodeNumber(s[..|s| - 1]);
      var c := CodeNumber(s[|s| - 1].code);
      assert forall j :: 0 <= j < |s| - 1 ==> s[..|s| - 1][j] == s[j];
      if c.Some? && c.value > m then c.value else m
  }

  /** One step of the scan in generateEmployeeCode: the maximum over one more
   *  employee is the larger of the previous maximum and that employee's number. */
  lemma MaxCodeStep(s: seq<Employee>, n: int)
    requires 0 <= n < |s|
    ensures MaxCodeNumber(s[..n + 1]) ==
            (var c := CodeNumber(s[n].code);
             if c.Some? && c.value > MaxCodeNumber(s[..n]) then c.value else MaxCodeNumber(s[..n]))
  {
    var t := s[..n + 1];
    assert t[..|t| - 1] == s[..n];
    assert t[|t| - 1] == s[n];
  }

  /** Appending an employee with a fresh id keeps ids unique and loses no admin. */
  lemma AppendEmployeeKeeps(s: seq<Employee>, e: Employee)
    requires forall j :: 0 <= j < |s| ==> s[j].id != e.id
    ensures IdsUnique(s) ==> IdsUnique(s + [e])
    ensures AdminCount(s + [e]) >= AdminCount(s)
    ensures ActiveAdminCount(s + [e]) >= ActiveAdminCount(s)
  {
    CountAppend(s, [e], IsAdmin);
    CountAppend(s, [e], IsActiveAdmin);
  }

  /** The code the next employee receives. */
  function NextCode(s: seq<Employee>): (c: string)
    ensures CodeNumber(c) == Some(MaxCodeNumber(s) + 1)
    ensures forall j :: 0 <= j < |s| ==> s[j].code != c
  {
    NextCodeIsNew(s, MaxCodeNumber(s) + 1);
    CodeFor(MaxCodeNumber(s) + 1)
  }

  /** The next code's number exceeds every existing one, so it is nobody's code. */
  lemma NextCodeIsNew(s: seq<Employee>, n: nat)
    requires n == MaxCodeNumber(s) + 1
    ensures CodeNumber(CodeFor(n)) == Some(n)
    ensures forall j :: 0 <= j < |s| && CodeNumber(s[j].code).Some? ==> CodeNumber(s[j].code).value < n
    ensures forall j :: 0 <= j < |s| ==> s[j].code != CodeFor(n)
  {
    CodeForRoundTrip(n);
    forall j | 0 <= j < |s|
      ensures s[j].code != CodeFor(n)
    {
      var c := CodeNumber(s[j].code);
      assert c.None? || c.value < n;
      assert c != CodeNumber(CodeFor(n));
    }
  }

  /** The code built from the scanned maximum is the next code, and no
   *  employee already holds it. */
  lemma NextCodeFresh(s: seq<Employee>, n: nat)
    requires n == MaxCodeNumber(s) + 1
    ensures CodeFor(n) == NextCode(s)
    ensures forall j :: 0 <= j < |s| ==> s[j].code != CodeFor(n)
  {
    assert NextCode(s) == CodeFor(n);
  }

  /** The same, for the maximum the scan returns. */
  lemma NextCodeFromMax(s: seq<Employee>, m: nat)
    requires m == MaxCodeNumber(s)
    ensures CodeFor(m + 1) == NextCode(s)
    ensures forall j :: 0 <= j < |s| ==> s[j].code != CodeFor(m + 1)
  {
    NextCodeFresh(s, m + 1);
  }

  // ------------------------------------------------------------------
  // Validation and record updates
  // ------------------------------------------------------------------

  /** The first check addEmployee fails: blank name, blank phone, unknown role,
   *  a phone equal to a stored one, a non-empty email equal to a stored one. The
   *  comparisons use the input as given, before trimming. */
  function AddEmployeeRejection(s: seq<Employee>, input: EmployeeInput): (e: Option<EmployeeError>)
    ensures e.None? <==>
            !IsBlank(input.name) && !IsBlank(input.phone) && IsRole(input.role) &&
            (forall j :: 0 <= j < |s| ==> s[j].phone != input.phone) &&
            (input.email != "" ==> forall j :: 0 <= j < |s| ==> s[j].email != input.email)
  {
    if IsBlank(input.name) then Some(NameRequired)
    else if IsBlank(input.phone) then Some(PhoneRequired)
    else if !IsRole(input.role) then Some(InvalidRole)
    else if exists j :: 0 <= j < |s| && s[j].phone == input.phone then Some(PhoneTaken)
    else if input.email != "" && exists j :: 0 <= j < |s| && s[j].email == input.email then Some(EmailTaken)
    else None
  }

  /** The first check updateEmployee fails: unknown id; a supplied, changed phone
   *  that another employee has; a supplied, changed email that another has. */
  function UpdateEmployeeRejection(s: seq<Employee>, id: string, patch: EmployeePatch): (e: Option<EmployeeError>)
    ensures EmployeeIndex(s, id) < 0 ==> e == Some(EmployeeNotFound)
    ensures e.None? <==>
            var i := EmployeeIndex(s, id);
            i >= 0 &&
            (ChangesPhone(s[i], patch) ==> forall j :: 0 <= j < |s| && s[j].id != id ==> s[j].phone != patch.phone.value) &&
            (ChangesEmail(s[i], patch) ==> forall j :: 0 <= j < |s| && s[j].id != id ==> s[j].email != patch.email.value)
  {
    var i := EmployeeIndex(s, id);
    if i < 0 then Some(EmployeeNotFound)
    else if ChangesPhone(s[i], patch) && exists j :: 0 <= j < |s| && s[j].id != id && s[j].phone == patch.phone.value then
      Some(PhoneTaken)
    else if ChangesEmail(s[i], patch) && exists j :: 0 <= j < |s| && s[j].id != id && s[j].email == patch.email.value then
      Some(EmailTaken)
    else None
  }

  /** `updates.phone && updates.phone !== employee.phone`. */
  predicate ChangesPhone(e: Employee, patch: EmployeePatch)
  {
    patch.phone.Some? && patch.phone.value != "" && patch.phone.value != e.phone
  }

  /** `updates.email && updates.email !== employee.email`. */
  predicate ChangesEmail(e: Employee, patch: EmployeePatch)
  {
    patch.email.Some? && patch.email.value != "" && patch.email.value != e.email
  }

  /** `{...employee, ...updates}`: every supplied field replaces the stored one. */
  function Overlay(e: Employee, patch: EmployeePatch): (r: Employee)
    ensures r.id == e.id && r.code == e.code
    ensures patch == EmployeePatch(None, None, None, None, None, None, None) ==> r == e
  {
    e.(name := patch.name.GetOr(e.name),
       phone := patch.phone.GetOr(e.phone),
       email := patch.email.GetOr(e.email),
       role := patch.role.GetOr(e.role),
       salary := patch.salary.GetOr(e.salary),
       startDate := patch.startDate.GetOr(e.startDate),
       status := patch.status.GetOr(e.status))
  }

  /** `employees.filter(emp => emp.id !== id)`. */
  function WithoutEmployee(s: seq<Employee>, id: string): (t: seq<Employee>)
    ensures forall e :: e in t <==> e in s && e.id != id
  {
    Filter(s, OtherThan(id))
  }

  function OtherThan(id: string): Employee -> bool
  {
    (e: Employee) => e.id != id
  }

  function HasRole(role: string): Employee -> bool
  {
    (e: Employee) => e.role == role
  }

  /** With unique ids, removing an employee removes exactly one admin when that
   *  employee is an admin and none otherwise. */
  lemma {:induction false} RemovalAdminCount(s: seq<Employee>, i: int)
    requires IdsUnique(s) && 0 <= i < |s|
    ensures AdminCount(WithoutEmployee(s, s[i].id)) == AdminCount(s) - (if IsAdmin(s[i]) then 1 else 0)
    decreases |s|
  {
    var id := s[i].id;
    var p := OtherThan(id);
    var head := if IsAdmin(s[0]) then 1 else 0;
    assert AdminCount(s) == head + AdminCount(s[1..]);
    if i == 0 {
      assert forall j :: 0 <= j < |s[1..]| ==> p(s[1..][j]);
      assert Filter(s, p) == Filter(s[1..], p) == s[1..];
    } else {
      var f := Filter(s[1..], p);
      assert forall a, b :: 0 <= a < b < |s[1..]| ==> s[1..][a].id != s[1..][b].id;
      assert s[1..][i - 1] == s[i];
      RemovalAdminCount(s[1..], i - 1);
      assert WithoutEmployee(s[1..], id) == f;
      assert s[0].id != id;
      assert WithoutEmployee(s, id) == [s[0]] + f;
      assert ([s[0]] + f)[1..] == f;
      assert AdminCount([s[0]] + f) == head + AdminCount(f);
    }
  }

  /** toggleEmployeeStatus on the list `s`: the new status, or why not. */
  function ToggleStatus(s: seq<Employee>, id: string): (o: (Result<Status, EmployeeError>, seq<Employee>))
    ensures EmployeeIndex(s, id) < 0 ==> o.0 == Err(EmployeeNotFound)
    ensures o.0.Err? ==> o.1 == s
    ensures o.0.Ok? ==>
            var i := EmployeeIndex(s, id);
            i >= 0 && o.0.value != s[i].status && o.1 == s[i := s[i].(status := o.0.value)]
    ensures o.0 == Err(LastActiveAdmin) <==>
            var i := EmployeeIndex(s, id);
            i >= 0 && IsActiveAdmin(s[i]) && ActiveAdminCount(s) <= 1
  {
    var i := EmployeeIndex(s, id);
    if i < 0 then (Err(EmployeeNotFound), s)
    else if IsActiveAdmin(s[i]) && ActiveAdminCount(s) <= 1 then (Err(LastActiveAdmin), s)
    else
      var status := if s[i].status == Active then Inactive else Active;
      (Ok(status), s[i := s[i].(status := status)])
  }

  /** Toggling never leaves the roster without an active admin when it had one. */
  lemma ToggleKeepsActiveAdmin(s: seq<Employee>, id: string)
    requires ActiveAdminCount(s) >= 1
    ensures ActiveAdminCount(ToggleStatus(s, id).1) >= 1
  {
    var i := EmployeeIndex(s, id);
    if ToggleStatus(s, id).0.Ok? {
      CountUpdate(s, i, s[i].(status := ToggleStatus(s, id).0.value), IsActiveAdmin);
    }
  }

  /** Two successful toggles restore the roster. */
  lemma ToggleTwiceRestores(s: seq<Employee>, id: string)
    requires ToggleStatus(s, id).0.Ok?
    requires ToggleStatus(ToggleStatus(s, id).1, id).0.Ok?
    ensures ToggleStatus(ToggleStatus(s, id).1, id).1 == s
  {
    var i := EmployeeIndex(s, id);
    var t := ToggleStatus(s, id).1;
    assert forall j :: 0 <= j < |s| ==> t[j].id == s[j].id;
    assert EmployeeIndex(t, id) == i;
  }

  // ------------------------------------------------------------------
  // Reports
  // ------------------------------------------------------------------

  /** countEmployeesByRole: for each of the five roles, how many active employees
   *  hold it. */
  function CountByRole(s: seq<Employee>): (counts: map<string, nat>)
    ensures counts.Keys == set r | r in RoleIds
    ensures forall r :: r in counts ==> counts[r] <= |s|
  {
    map r | r in RoleIds :: |Filter(Filter(s, IsActive), HasRole(r))|
  }

  /** An inactive employee joining the roster changes no count; an active one
   *  raises the count of its own role by one and no other. */
  lemma CountByRoleAppend(s: seq<Employee>, e: Employee)
    ensures forall r :: r in RoleIds ==>
              CountByRole(s + [e])[r] == CountByRole(s)[r] + (if e.status == Active && e.role == r then 1 else 0)
  {
    FilterAppend(s, [e], IsActive);
    forall r | r in RoleIds
      ensures CountByRole(s + [e])[r] == CountByRole(s)[r] + (if e.status == Active && e.role == r then 1 else 0)
    {
      FilterAppend(Filter(s, IsActive), Filter([e], IsActive), HasRole(r));
    }
  }

  function SalarySum(s: seq<Employee>): real
  {
    if |s| == 0 then 0.0 else SalarySum(s[..|s| - 1]) + s[|s| - 1].salary
  }

  /** calculateTotalSalary: the salaries of the active employees. */
  function TotalSalary(s: seq<Employee>): (t: real)
    ensures t == ActiveSum(s)
    ensures SalariesNonNegative(s) ==> 0.0 <= t <= SalarySum(s)
    ensures (forall j :: 0 <= j < |s| ==> s[j].status == Active) ==> t == SalarySum(s)
  {
    ActiveSumIsFiltered(s);
    if SalariesNonNegative(s) then
      ActivePayrollBounds(s);
      SalarySum(Filter(s, IsActive))
    else
      SalarySum(Filter(s, IsActive))
  }

  predicate SalariesNonNegative(s: seq<Employee>)
  {
    forall j :: 0 <= j < |s| ==> s[j].salary >= 0.0
  }

  /** The salaries of the active employees, added up one employee at a time. */
  function ActiveSum(s: seq<Employee>): real
  {
    if |s| == 0 then 0.0
    else ActiveSum(s[..|s| - 1]) + (if s[|s| - 1].status == Active then s[|s| - 1].salary else 0.0)
  }

  /** With no negative salary, the active employees' salaries are a part of
   *  the whole payroll. */
  lemma {:induction false} ActivePayrollBounds(s: seq<Employee>)
    requires SalariesNonNegative(s)
    ensures 0.0 <= ActiveSum(s) <= SalarySum(s)
    decreases |s|
  {
    if |s| > 0 {
      var init := s[..|s| - 1];
      assert SalariesNonNegative(init) by {
        assert forall j :: 0 <= j < |init| ==> init[j] == s[j];
      }
      ActivePayrollBounds(init);
    }
  }

  /** Filtering the active employees and summing their salaries is the
   *  one-at-a-time sum. */
  lemma {:induction false} ActiveSumIsFiltered(s: seq<Employee>)
    ensures SalarySum(Filter(s, IsActive)) == ActiveSum(s)
    decreases |s|
  {
    if |s| > 0 {
      var n := |s| - 1;
      ActiveSumIsFiltered(s[..n]);
      ActiveSalaryStep(s[..n], s[n]);
      PrefixSnoc(s, n);
      WholePrefix(s);
    }
  }

  /** The active salaries of a list with one more employee are the list's,
   *  plus that employee's when active. */
  lemma ActiveSalaryStep(s: seq<Employee>, e: Employee)
    ensures SalarySum(Filter(s + [e], IsActive)) ==
            SalarySum(Filter(s, IsActive)) + (if e.status == Active then e.salary else 0.0)
  {
    FilterAppend(s, [e], IsActive);
    SalarySumAppend(Filter(s, IsActive), Filter([e], IsActive));
    assert SalarySum([e]) == e.salary by {
      assert [e][..0] == [];
    }
  }

  lemma {:induction false} SalarySumAppend(a: seq<Employee>, b: seq<Employee>)
    ensures SalarySum(a + b) == SalarySum(a) + SalarySum(b)
    decreases |b|
  {
    if |b| == 0 {
      assert a + b == a;
    } else {
      assert (a + b)[..|a + b| - 1] == a + b[..|b| - 1];
      SalarySumAppend(a, b[..|b| - 1]);
    }
  }

  /** Only active employees are paid: one more employee adds its salary to the
   *  total when active and nothing otherwise. */
  lemma TotalSalaryAppend(s: seq<Employee>, e: Employee)
    ensures TotalSalary(s + [e]) == TotalSalary(s) + (if e.status == Active then e.salary else 0.0)
  {
    assert (s + [e])[..|s|] == s;
  }

  /** searchEmployees' test for one employee against the lower-cased, trimmed query. */
  predicate MatchesQuery(e: Employee, q: string)
  {
    Contains(ToLower(e.name), q) || Contains(ToLower(e.code), q) || Contains(e.phone, q) ||
    (e.email != "" && Contains(ToLower(e.email), q))
  }

  /** searchEmployees: everyone for a blank query, else those whose name, code or
   *  email contains the query case-insensitively or whose phone contains it. */
  function SearchEmployees(s: seq<Employee>, query: string): (r: seq<Employee>)
    ensures IsBlank(query) ==> r == s
    ensures !IsBlank(query) ==> forall e :: e in r <==> e in s && MatchesQuery(e, Trim(ToLower(query)))
    ensures |r| <= |s|
  {
    if IsBlank(query) then s
    else
      var q := Trim(ToLower(query));
      Filter(s, (e: Employee) => MatchesQuery(e, q))
  }

  // ------------------------------------------------------------------
  // The roster
  // ------------------------------------------------------------------

  /** The scan in generateEmployeeCode: the largest NV number among the codes. */
  method ScanMaxCode(employees: seq<Employee>) returns (maxNumber: nat)
    ensures maxNumber == MaxCodeNumber(employees)
  {
    maxNumber := 0;
    for n := 0 to |employees|
      invariant maxNumber == MaxCodeNumber(employees[..n])
    {
      MaxCodeStep(employees, n);
      var m := CodeNumber(employees[n].code);
      if m.Some? && m.value > maxNumber {
        maxNumber := m.value;
      }
    }
    WholePrefix(employees);
  }

  class EmployeeRoster {
    var employees: seq<Employee>

    constructor (seed: seq<Employee>)
      ensures employees == seed
    {
      employees := seed;
    }

    /** generateEmployeeCode: scans the codes for the largest NV number and
     *  returns the next one, padded to three digits. */
    method GenerateEmployeeCode() returns (code: string)
      ensures forall j :: 0 <= j < |employees| ==> employees[j].code != code
      ensures code == NextCode(employees)
    {
      var maxNumber := ScanMaxCode(employees);
      code := CodeFor(maxNumber + 1);
      NextCodeFromMax(employees, maxNumber);
    }

    /** addEmployee: on success appends an active employee with a fresh code and
     *  the name, phone and email trimmed; `newId` and `today` (the date part of
     *  the current time, the start date when none is given) come from the clock. */
    method AddEmployee(input: EmployeeInput, newId: string, today: string) returns (r: Result<Employee, EmployeeError>)
      requires forall j :: 0 <= j < |employees| ==> employees[j].id != newId
      modifies this
      ensures r.Err? <==> AddEmployeeRejection(old(employees), input).Some?
      ensures r.Err? ==> r.error == AddEmployeeRejection(old(employees), input).value && employees == old(employees)
      ensures r.Ok? ==>
              r.value == Employee(newId, NextCode(old(employees)), Trim(input.name), Trim(input.phone),
                                  Trim(input.email), input.role, input.salary.GetOr(0.0),
                                  if input.startDate == "" then today else input.startDate, Active) &&
              employees == old(employees) + [r.value]
      ensures IdsUnique(old(employees)) ==> IdsUnique(employees)
      ensures AdminCount(employees) >= AdminCount(old(employees))
      ensures ActiveAdminCount(employees) >= ActiveAdminCount(old(employees))
    {
      var rejection := AddEmployeeRejection(employees, input);
      if rejection.Some? {
        return Err(rejection.value);
      }
      var code := GenerateEmployeeCode();
      var e := Employee(newId, code, Trim(input.name), Trim(input.phone), Trim(input.email), input.role,
                        input.salary.GetOr(0.0), if input.startDate == "" then today else input.startDate, Active);
      AppendEmployeeKeeps(employees, e);
      employees := employees + [e];
      r := Ok(e);
    }

    /** updateEmployee: on success the supplied fields replace the stored ones in
     *  that employee's record only. */
    method UpdateEmployee(id: string, patch: EmployeePatch) returns (r: Result<Employee, EmployeeError>)
      modifies this
      ensures r.Err? <==> UpdateEmployeeRejection(old(employees), id, patch).Some?
      ensures r.Err? ==> r.error == UpdateEmployeeRejection(old(employees), id, patch).value && employees == old(employees)
      ensures r.Ok? ==>
              var i := EmployeeIndex(old(employees), id);
              i >= 0 && r.value == Overlay(old(employees)[i], patch) && employees == old(employees)[i := r.value]
      ensures IdsUnique(old(employees)) ==> IdsUnique(employees)
    {
      var rejection := UpdateEmployeeRejection(employees, id, patch);
      if rejection.Some? {
        return Err(rejection.value);
      }
      var i := EmployeeIndex(employees, id);
      var e := Overlay(employees[i], patch);
      employees := employees[i := e];
      r := Ok(e);
    }

    /** deleteEmployee: refuses an unknown id, and an admin while the roster holds
     *  at most one admin of any status; otherwise removes that employee. */
    method DeleteEmployee(id: string) returns (r: Result<(), EmployeeError>)
      modifies this
      ensures EmployeeIndex(old(employees), id) < 0 ==> r == Err(EmployeeNotFound)
      ensures r == Err(LastAdmin) <==>
              var i := EmployeeIndex(old(employees), id);
              i >= 0 && IsAdmin(old(employees)[i]) && AdminCount(old(employees)) <= 1
      ensures r.Ok? <==>
              var i := EmployeeIndex(old(employees), id);
              i >= 0 && !(IsAdmin(old(employees)[i]) && AdminCount(old(employees)) <= 1)
      ensures r.Err? ==> employees == old(employees)
      ensures r.Ok? ==> EmployeeIndex(old(employees), id) >= 0 && employees == WithoutEmployee(old(employees), id)
      ensures IdsUnique(old(employees)) && AdminCount(old(employees)) >= 1 ==> AdminCount(employees) >= 1
    {
      var i := EmployeeIndex(employees, id);
      if i < 0 {
        return Err(EmployeeNotFound);
      }
      if IsAdmin(employees[i]) && AdminCount(employees) <= 1 {
        return Err(LastAdmin);
      }
      if IdsUnique(employees) {
        RemovalAdminCount(employees, i);
      }
      employees := WithoutEmployee(employees, id);
      r := Ok(());
    }

    /** toggleEmployeeStatus: flips active and inactive, except for the last
     *  active admin. */
    method ToggleEmployeeStatus(id: string) returns (r: Result<Status, EmployeeError>)
      modifies this
      ensures (r, employees) == ToggleStatus(old(employees), id)
      ensures ActiveAdminCount(old(employees)) >= 1 ==> ActiveAdminCount(employees) >= 1
    {
      var i := EmployeeIndex(employees, id);
      if i < 0 {
        return Err(EmployeeNotFound);
      }
      if IsActiveAdmin(employees[i]) && ActiveAdminCount(employees) <= 1 {
        return Err(LastActiveAdmin);
      }
      if ActiveAdminCount(employees) >= 1 {
        ToggleKeepsActiveAdmin(employees, id);
      }
      var status := if employees[i].status == Active then Inactive else Active;
      employees := employees[i := employees[i].(status := status)];
      r := Ok(status);
    }
  }
}
