/**
 * The staff screen's form: permissions, the weekly work schedule, bank
 * details and the save rules for a new or edited employee.
 */
module EmployeeManager {
  import opened Wrappers
  import opened Text
  import opened Seqs
  import opened Domain
  import opened Registration
  import App

  // ---------------------------------------------------------------------------
  // Permissions

  /** `togglePermission`: a listed permission is removed (every copy), a missing one appended. */
  function TogglePermission(perms: seq<Permission>, perm: Permission): (r: seq<Permission>)
    ensures perm in r <==> perm !in perms
    ensures forall q :: q != perm ==> (q in r <==> q in perms)
  {
    if perm in perms then
      FilterMembership(perms, p => p != perm);
      Filter(perms, p => p != perm)
    else perms + [perm]
  }

  /** Toggling the same permission twice gives back the same set of permissions. */
  lemma TogglePermissionTwice(perms: seq<Permission>, perm: Permission)
    ensures forall q :: q in TogglePermission(TogglePermission(perms, perm), perm) <==> q in perms
  {
  }

  /** Turning on a permission that was off, then off again, gives back the very same list. */
  lemma {:induction false} ToggleOnOff(perms: seq<Permission>, perm: Permission)
    requires perm !in perms
    ensures TogglePermission(TogglePermission(perms, perm), perm) == perms
  {
    FilterAppend(perms, [perm], p => p != perm);
    FilterAllPass(perms, p => p != perm);
    assert Filter([perm], p => p != perm) == [];
  }

  // ---------------------------------------------------------------------------
  // Work schedule

  datatype ScheduleField = ActiveField(active: bool) | StartField(startTime: string) | EndField(endTime: string)

  function SetScheduleField(w: WorkSchedule, f: ScheduleField): WorkSchedule {
    match f
    case ActiveField(v) => w.(active := v)
    case StartField(v) => w.(startTime := v)
    case EndField(v) => w.(endTime := v)
  }

  /** `handleScheduleUpdate`: one field of one day changes; every other day stays. */
  function ScheduleUpdate(schedule: seq<WorkSchedule>, index: nat, f: ScheduleField): (r: seq<WorkSchedule>)
    requires index < |schedule|
    ensures |r| == |schedule|
    ensures forall i :: 0 <= i < |schedule| && i != index ==> r[i] == schedule[i]
    ensures r[index].dayOfWeek == schedule[index].dayOfWeek
    ensures f.ActiveField? ==> r[index] == schedule[index].(active := f.active)
    ensures f.StartField? ==> r[index] == schedule[index].(startTime := f.startTime)
    ensures f.EndField? ==> r[index] == schedule[index].(endTime := f.endTime)
  {
    schedule[index := SetScheduleField(schedule[index], f)]
  }

  /** The week a new form starts with: Monday to Friday 9 to 18, Saturday 10 to 14, Sunday off. */
  const DefaultWeek: seq<WorkSchedule> := [
    WorkSchedule(1, true, "09:00", "18:00"),
    WorkSchedule(2, true, "09:00", "18:00"),
    WorkSchedule(3, true, "09:00", "18:00"),
    WorkSchedule(4, true, "09:00", "18:00"),
    WorkSchedule(5, true, "09:00", "18:00"),
    WorkSchedule(6, true, "10:00", "14:00"),
    WorkSchedule(0, false, "00:00", "00:00")
  ]

  // ---------------------------------------------------------------------------
  // Bank

  /** `handleBankSelection`: "Otro" switches to a typed bank name, starting empty. */
  function BankSelection(value: string): (r: (bool, string))
    ensures r.0 <==> value == "Otro"
    ensures r.1 == if value == "Otro" then "" else value
  {
    if value == "Otro" then (true, "") else (false, value)
  }

  /** The value the bank select shows: `Otro` while a typed name is in use, otherwise the bank name. */
  function SelectValue(isCustomBank: bool, bankName: string): string {
    if isCustomBank then "Otro" else bankName
  }

  /** Whatever is picked in the select is what the select then shows. */
  lemma BankSelectionShown(value: string)
    ensures var r := BankSelection(value); SelectValue(r.0, r.1) == value
  {
  }

  // ---------------------------------------------------------------------------
  // Saving

  datatype EmployeeForm = EmployeeForm(
    fullName: string,
    email: string,
    phone: string,
    birthDate: string,
    hireDate: string,
    jobTitle: string,
    role: string,
    password: string,
    permissions: seq<Permission>,
    avatarUrl: string,
    isAdmin: bool,
    status: EmployeeStatus,
    statusChangeDate: string,
    bankName: string,
    accountNumber: string,
    clabe: string,
    cardNumber: string,
    accountHolder: string,
    schedule: seq<WorkSchedule>)

  datatype SaveError = IncompletePhone | MissingStatusDate

  /** Which callback receives the record. */
  datatype Saved = Added(employee: Employee) | Updated(employee: Employee)

  function DefaultAvatar(fullName: string): string {
    "https://ui-avatars.com/api/?name=" + fullName + "&background=random"
  }

  /** The attendance log an edited employee keeps: the stored one, or none when the id is gone. */
  function KeptLog(employees: seq<Employee>, id: string): (r: seq<AttendanceRecord>)
    ensures (forall e :: e in employees ==> e.id != id) ==> r == []
    ensures (exists e :: e in employees && e.id == id) ==> exists e :: e in employees && e.id == id && r == e.attendanceLog
  {
    match Find(employees, (e: Employee) => e.id == id)
    case Some(e) => e.attendanceLog
    case None => []
  }

  /**
   * `handleSave`: refused without a ten-digit phone, or for a suspended or
   * terminated employee without the date of that change. The admin flag
   * grants `all` and nothing else; bank details are kept, with the full name
   * as holder when none is typed; the date of a status change is kept only
   * when the status is not active. An edit keeps the id and attendance of
   * the employee being edited, a new employee starts with no attendance.
   */
  method HandleSave(form: EmployeeForm, editId: Option<string>, employees: seq<Employee>, now: string)
    returns (r: Result<Saved, SaveError>)
    ensures !HasTenDigits(form.phone) ==> r == Err(IncompletePhone)
    ensures (HasTenDigits(form.phone) && form.status != Active && form.statusChangeDate == "") ==>
      r == Err(MissingStatusDate)
    ensures r.Ok? <==> (HasTenDigits(form.phone) && (form.status == Active || form.statusChangeDate != ""))
    ensures r.Ok? ==> (r.value.Updated? <==> Truthy(editId))
    ensures r.Ok? ==>
      var e := r.value.employee;
      e.id == (if Truthy(editId) then editId.value else "e-" + now)
      && e.fullName == form.fullName && e.email == form.email && e.phone == form.phone
      && e.birthDate == form.birthDate && e.hireDate == form.hireDate && e.jobTitle == form.jobTitle
      && e.role == form.role && e.password == Some(form.password)
      && e.permissions == (if form.isAdmin then [All] else form.permissions)
      && e.avatarUrl == (if form.avatarUrl != "" then form.avatarUrl else DefaultAvatar(form.fullName))
      && e.workSchedule == form.schedule
      && e.attendanceLog == (if Truthy(editId) then KeptLog(employees, editId.value) else [])
      && e.bankingInfo == Some(BankingInfo(form.bankName, form.accountNumber, form.clabe, form.cardNumber,
                                           if form.accountHolder != "" then form.accountHolder else form.fullName))
      && e.status == form.status
      && e.statusChangeDate == (if form.status != Active then Some(form.statusChangeDate) else None)
  {
    if |Digits(form.phone)| != 10 {
      return Err(IncompletePhone);
    }
    if form.status != Active && form.statusChangeDate == "" {
      return Err(MissingStatusDate);
    }
    var finalPerms := if form.isAdmin then [All] else form.permissions;
    var banking := BankingInfo(form.bankName, form.accountNumber, form.clabe, form.cardNumber,
                               if form.accountHolder != "" then form.accountHolder else form.fullName);
    var editing := Truthy(editId);
    var empData := Employee(
      if editing then editId.value else "e-" + now,
      form.fullName,
      form.email,
      form.phone,
      form.birthDate,
      form.hireDate,
      form.jobTitle,
      Some(form.password),
      form.role,
      finalPerms,
      if form.avatarUrl != "" then form.avatarUrl else DefaultAvatar(form.fullName),
      form.schedule,
      if editing then KeptLog(employees, editId.value) else [],
      Some(banking),
      form.status,
      if form.status != Active then Some(form.statusChangeDate) else None);
    if editing {
      r := Ok(Updated(empData));
    } else {
      r := Ok(Added(empData));
    }
  }

  /** An employee saved with the admin flag holds every permission once signed in. */
  lemma AdminFlagGrantsAll(e: Employee, perm: Permission)
    requires e.permissions == [All]
    ensures App.HasPermission(Domain.Admin, Some(e), perm)
  {
  }

  /** Editing an employee who is on file keeps exactly their attendance log. */
  lemma EditKeepsAttendance(employees: seq<Employee>, i: int)
    requires 0 <= i < |employees|
    requires forall k :: 0 <= k < |employees| && k != i ==> employees[k].id != employees[i].id
    ensures KeptLog(employees, employees[i].id) == employees[i].attendanceLog
  {
    var found := Find(employees, (e: Employee) => e.id == employees[i].id);
    assert found.Some?;
    assert found.value in employees;
  }
}
