/**
 * The application shell: who is signed in, which screen is shown, and the
 * shared collections (patients, appointments, employees) that every screen
 * reads and that the handlers here replace.
 */
module App {
  import opened Wrappers
  import opened Text
  import opened Seqs
  import opened Domain

  // ---------------------------------------------------------------------------
  // Permissions

  /** `hasPermission`: staff only, and only with the permission itself or `all`. */
  predicate HasPermission(role: Role, user: Option<Employee>, perm: Permission) {
    role == Admin && user.Some? && (All in user.value.permissions || perm in user.value.permissions)
  }

  /** Clients never hold a permission; `all` grants every one; a listed permission is granted. */
  lemma PermissionFacts(role: Role, user: Option<Employee>, perm: Permission)
    ensures role == Client || user.None? ==> !HasPermission(role, user, perm)
    ensures role == Admin && user.Some? && All in user.value.permissions ==> HasPermission(role, user, perm)
    ensures role == Admin && user.Some? && perm in user.value.permissions ==> HasPermission(role, user, perm)
    ensures HasPermission(role, user, perm) ==> exists q :: q in user.value.permissions && (q == All || q == perm)
  {
  }

  // ---------------------------------------------------------------------------
  // Collection updates

  /** `handleClientCancelAppointment`: the appointment with that id becomes cancelled, whatever it was. */
  function CancelById(list: seq<Appointment>, id: string): (r: seq<Appointment>)
    ensures |r| == |list|
    ensures forall i :: 0 <= i < |list| ==>
      if list[i].id == id then r[i] == list[i].(status := Cancelled) else r[i] == list[i]
  {
    MapAppointmentById(list, id, (a: Appointment) => a.(status := Cancelled))
  }

  /** Cancelling twice is cancelling once. */
  lemma {:induction false} CancelIdempotent(list: seq<Appointment>, id: string)
    ensures CancelById(CancelById(list, id), id) == CancelById(list, id)
  {
    var once := CancelById(list, id);
    var twice := CancelById(once, id);
    forall i | 0 <= i < |list| ensures twice[i] == once[i] {
      assert once[i].id == list[i].id;
    }
  }

  /** `handleUpdateAppointment` / `handleUpdatePatient` shape: the entry with the same id is replaced. */
  function ReplaceAppointment(list: seq<Appointment>, updated: Appointment): (r: seq<Appointment>)
    ensures |r| == |list|
    ensures forall i :: 0 <= i < |list| ==> r[i] == if list[i].id == updated.id then updated else list[i]
  {
    MapAppointmentById(list, updated.id, _ => updated)
  }

  function ReplacePatient(list: seq<Patient>, updated: Patient): (r: seq<Patient>)
    ensures |r| == |list|
    ensures forall i :: 0 <= i < |list| ==> r[i] == if list[i].id == updated.id then updated else list[i]
  {
    seq(|list|, i requires 0 <= i < |list| => if list[i].id == updated.id then updated else list[i])
  }

  function PatientIds(patients: seq<Patient>): set<string> {
    set p | p in patients :: p.id
  }

  /** Every appointment belongs to a patient on file. */
  predicate NoOrphans(patients: seq<Patient>, appointments: seq<Appointment>) {
    forall a :: a in appointments ==> a.patientId in PatientIds(patients)
  }

  predicate OtherPatient(id: string, p: Patient) { p.id != id }
  predicate OtherPatientsAppointment(id: string, a: Appointment) { a.patientId != id }

  /** `handleDeletePatient`'s effect: the patient goes, and so does every appointment of theirs. */
  function DeletePatientCascade(patients: seq<Patient>, appointments: seq<Appointment>, id: string): (r: (seq<Patient>, seq<Appointment>))
    ensures forall p :: p in r.0 <==> p in patients && p.id != id
    ensures forall a :: a in r.1 <==> a in appointments && a.patientId != id
  {
    FilterMembership(patients, p => OtherPatient(id, p));
    FilterMembership(appointments, a => OtherPatientsAppointment(id, a));
    (Filter(patients, p => OtherPatient(id, p)), Filter(appointments, a => OtherPatientsAppointment(id, a)))
  }

  /** Deleting a patient with their appointments leaves no appointment without a patient. */
  lemma DeleteKeepsNoOrphans(patients: seq<Patient>, appointments: seq<Appointment>, id: string)
    requires NoOrphans(patients, appointments)
    ensures NoOrphans(DeletePatientCascade(patients, appointments, id).0, DeletePatientCascade(patients, appointments, id).1)
  {
    var (ps, as_) := DeletePatientCascade(patients, appointments, id);
    forall a | a in as_ ensures a.patientId in PatientIds(ps) {
      var p :| p in patients && p.id == a.patientId;
      assert p in ps;
    }
  }

  /** A patient whose email matches, ignoring case: the first one. */
  function FindByEmail(patients: seq<Patient>, email: string): (r: Option<Patient>)
    ensures r.Some? ==> r.value in patients && EqualsIgnoreCase(r.value.email, email)
    ensures r.None? ==> forall p :: p in patients ==> !EqualsIgnoreCase(p.email, email)
    ensures r.Some? ==>
      exists i :: 0 <= i < |patients| && patients[i] == r.value && forall k :: 0 <= k < i ==> !EqualsIgnoreCase(patients[k].email, email)
  {
    Find(patients, (p: Patient) => EqualsIgnoreCase(p.email, email))
  }

  /**
   * `handleClientBooking`'s effect: a booking from an email already on file
   * is filed under that patient (the existing record wins and the list stays
   * as it is); otherwise the new patient is put first. The appointment is
   * always put first.
   */
  function MergeBooking(patients: seq<Patient>, appointments: seq<Appointment>, apt: Appointment, patient: Patient): (r: (seq<Patient>, seq<Appointment>))
    ensures |r.1| == |appointments| + 1 && r.1[1..] == appointments
    ensures FindByEmail(patients, patient.email).Some? ==>
      var e := FindByEmail(patients, patient.email).value;
      r.0 == patients && r.1[0] == apt.(patientId := e.id, patientName := e.fullName)
    ensures FindByEmail(patients, patient.email).None? ==>
      r.0 == [patient] + patients && r.1[0] == apt
  {
    match FindByEmail(patients, patient.email)
    case Some(e) => (patients, [apt.(patientId := e.id, patientName := e.fullName)] + appointments)
    case None => ([patient] + patients, [apt] + appointments)
  }

  /** A booking filed under its own patient record keeps every appointment attached to a patient. */
  lemma MergeKeepsNoOrphans(patients: seq<Patient>, appointments: seq<Appointment>, apt: Appointment, patient: Patient)
    requires NoOrphans(patients, appointments)
    requires apt.patientId == patient.id
    ensures NoOrphans(MergeBooking(patients, appointments, apt, patient).0, MergeBooking(patients, appointments, apt, patient).1)
  {
    var (ps, as_) := MergeBooking(patients, appointments, apt, patient);
    assert forall p :: p in patients ==> p in ps;
    forall a | a in as_ ensures a.patientId in PatientIds(ps) {
      if a == as_[0] {
        var e := FindByEmail(patients, patient.email);
        if e.Some? {
          assert e.value in ps;
        } else {
          assert patient in ps;
        }
      } else {
        assert a in appointments;
        var p :| p in patients && p.id == a.patientId;
        assert p in ps;
      }
    }
  }

  /** Booking twice with the same email never files a second patient record. */
  lemma SecondBookingReusesPatient(patients: seq<Patient>, appointments: seq<Appointment>, a1: Appointment, a2: Appointment, patient: Patient, again: Patient)
    requires EqualsIgnoreCase(again.email, patient.email)
    ensures var (ps, as_) := MergeBooking(patients, appointments, a1, patient);
      MergeBooking(ps, as_, a2, again).0 == ps
  {
    var (ps, as_) := MergeBooking(patients, appointments, a1, patient);
    var first := FindByEmail(patients, patient.email);
    var w := if first.Some? then first.value else patient;
    assert w in ps && EqualsIgnoreCase(w.email, again.email);
    assert FindByEmail(ps, again.email).Some?;
  }

  // ---------------------------------------------------------------------------
  // Attendance

  /** `handleClockIn`'s effect: one present record with the check-in time appended to that employee's log. */
  function ClockIn(employees: seq<Employee>, empId: string, date: string, time: string): (r: seq<Employee>)
    ensures |r| == |employees|
    ensures forall i :: 0 <= i < |employees| ==>
      if employees[i].id == empId then
        r[i] == employees[i].(attendanceLog := employees[i].attendanceLog + [AttendanceRecord(date, Some(time), None, Present)])
      else r[i] == employees[i]
  {
    seq(|employees|, i requires 0 <= i < |employees| =>
      if employees[i].id == empId
      then employees[i].(attendanceLog := employees[i].attendanceLog + [AttendanceRecord(date, Some(time), None, Present)])
      else employees[i])
  }

  /** A record still open on that date: no check-out (absent or empty). */
  predicate OpenOn(rec: AttendanceRecord, date: string) {
    rec.date == date && !Truthy(rec.checkOut)
  }

  function CloseRecords(log: seq<AttendanceRecord>, date: string, time: string): (r: seq<AttendanceRecord>)
    ensures |r| == |log|
    ensures forall i :: 0 <= i < |log| ==> r[i] == if OpenOn(log[i], date) then log[i].(checkOut := Some(time)) else log[i]
  {
    seq(|log|, i requires 0 <= i < |log| => if OpenOn(log[i], date) then log[i].(checkOut := Some(time)) else log[i])
  }

  /** `handleClockOut`'s effect: every open record of that employee for the date gets the check-out time. */
  function ClockOut(employees: seq<Employee>, empId: string, date: string, time: string): (r: seq<Employee>)
    ensures |r| == |employees|
    ensures forall i :: 0 <= i < |employees| ==>
      if employees[i].id == empId then r[i] == employees[i].(attendanceLog := CloseRecords(employees[i].attendanceLog, date, time))
      else r[i] == employees[i]
  {
    seq(|employees|, i requires 0 <= i < |employees| =>
      if employees[i].id == empId then employees[i].(attendanceLog := CloseRecords(employees[i].attendanceLog, date, time))
      else employees[i])
  }

  /** After clocking out, that employee has no record left open on the date. */
  lemma ClockOutClosesDay(employees: seq<Employee>, empId: string, date: string, time: string, i: int, k: int)
    requires time != ""
    requires 0 <= i < |employees| && employees[i].id == empId
    requires 0 <= k < |employees[i].attendanceLog|
    ensures !OpenOn(ClockOut(employees, empId, date, time)[i].attendanceLog[k], date)
  {
  }

  /** A second clock-out the same day changes nothing: the first check-out time stays. */
  lemma {:induction false} ClockOutIdempotent(employees: seq<Employee>, empId: string, date: string, t1: string, t2: string)
    requires t1 != ""
    ensures ClockOut(ClockOut(employees, empId, date, t1), empId, date, t2) == ClockOut(employees, empId, date, t1)
  {
    var once := ClockOut(employees, empId, date, t1);
    var twice := ClockOut(once, empId, date, t2);
    forall i | 0 <= i < |employees| ensures twice[i] == once[i] {
      if employees[i].id == empId {
        var log := once[i].attendanceLog;
        assert CloseRecords(log, date, t2) == log;
      }
    }
  }

  /** A clock-in followed by a clock-out the same day leaves a closed record with both times. */
  lemma ClockInThenOut(employees: seq<Employee>, empId: string, date: string, tin: string, tout: string, i: int)
    requires tout != ""
    requires 0 <= i < |employees| && employees[i].id == empId
    ensures var log := ClockOut(ClockIn(employees, empId, date, tin), empId, date, tout)[i].attendanceLog;
      |log| == |employees[i].attendanceLog| + 1
      && log[|log| - 1] == AttendanceRecord(date, Some(tin), Some(tout), Present)
  {
  }

  // ---------------------------------------------------------------------------
  // The shell

  datatype Intent = NewPatientIntent | NewAppointmentIntent

  class AppState {
    var role: Role
    var currentUser: Option<Employee>
    var currentView: View
    var patients: seq<Patient>
    var appointments: seq<Appointment>
    var employees: seq<Employee>
    var selectedPatient: Option<Patient>
    var actionIntent: Option<Intent>

    constructor (patients0: seq<Patient>, appointments0: seq<Appointment>, employees0: seq<Employee>)
      ensures role == Client && currentUser.None? && currentView == DashboardView
      ensures patients == patients0 && appointments == appointments0 && employees == employees0
      ensures selectedPatient.None? && actionIntent.None?
    {
      role := Client;
      currentUser := None;
      currentView := DashboardView;
      patients := patients0;
      appointments := appointments0;
      employees := employees0;
      selectedPatient := None;
      actionIntent := None;
    }

    predicate Can(perm: Permission)
      reads this
    {
      HasPermission(role, currentUser, perm)
    }

    /**
     * `handleNavigate`: settings and employees need their permission (the
     * request is ignored otherwise); leaving for any screen but a patient's
     * detail or the client portal forgets the selected patient.
     */
    method Navigate(view: View)
      modifies this`currentView, this`selectedPatient, this`actionIntent
      ensures (view == SettingsView && !Can(ManageSettings)) || (view == EmployeesView && !Can(ManageEmployees)) ==>
        currentView == old(currentView) && selectedPatient == old(selectedPatient) && actionIntent == old(actionIntent)
      ensures !((view == SettingsView && !Can(ManageSettings)) || (view == EmployeesView && !Can(ManageEmployees))) ==>
        currentView == view && actionIntent.None?
        && selectedPatient == (if view == PatientDetailView || view == ClientPortalView then old(selectedPatient) else None)
    {
      if view == SettingsView && !Can(ManageSettings) {
        return;
      }
      if view == EmployeesView && !Can(ManageEmployees) {
        return;
      }
      currentView := view;
      if view != PatientDetailView && view != ClientPortalView {
        selectedPatient := None;
      }
      actionIntent := None;
    }

    /** `handleUpdatePatient`: needs `edit_patients`; replaces the record with that id and selects it. */
    method UpdatePatient(updated: Patient)
      modifies this`patients, this`selectedPatient
      ensures !Can(EditPatients) ==> patients == old(patients) && selectedPatient == old(selectedPatient)
      ensures Can(EditPatients) ==> patients == ReplacePatient(old(patients), updated) && selectedPatient == Some(updated)
    {
      if !Can(EditPatients) {
        return;
      }
      patients := ReplacePatient(patients, updated);
      selectedPatient := Some(updated);
    }

    /** `handleAddPatient`: the new patient goes first. */
    method AddPatient(p: Patient)
      modifies this`patients
      ensures patients == [p] + old(patients)
    {
      patients := [p] + patients;
    }

    /**
     * `handleDeletePatient`: without `edit_patients` it is refused (the alert);
     * otherwise, once confirmed, the patient and all their appointments go and
     * the patient list is shown.
     */
    method DeletePatient(id: string, confirmed: bool) returns (refused: bool)
      modifies this`patients, this`appointments, this`selectedPatient, this`currentView
      ensures refused <==> !Can(EditPatients)
      ensures refused || !confirmed ==>
        patients == old(patients) && appointments == old(appointments)
        && selectedPatient == old(selectedPatient) && currentView == old(currentView)
      ensures !refused && confirmed ==>
        (patients, appointments) == DeletePatientCascade(old(patients), old(appointments), id)
        && selectedPatient.None? && currentView == PatientsView
    {
      if !Can(EditPatients) {
        return true;
      }
      refused := false;
      if confirmed {
        var (ps, as_) := DeletePatientCascade(patients, appointments, id);
        patients := ps;
        appointments := as_;
        selectedPatient := None;
        currentView := PatientsView;
      }
    }

    /** `handleAddAppointment`: refused without `edit_appointments`; otherwise the appointment goes first. */
    method AddAppointment(a: Appointment) returns (refused: bool)
      modifies this`appointments
      ensures refused <==> !Can(EditAppointments)
      ensures refused ==> appointments == old(appointments)
      ensures !refused ==> appointments == [a] + old(appointments)
    {
      if !Can(EditAppointments) {
        return true;
      }
      appointments := [a] + appointments;
      refused := false;
    }

    /** `handleUpdateAppointment`: replaces the appointment with that id; no permission is checked. */
    method UpdateAppointment(a: Appointment)
      modifies this`appointments
      ensures appointments == ReplaceAppointment(old(appointments), a)
    {
      appointments := ReplaceAppointment(appointments, a);
    }

    /** `handleClientBooking` */
    method ClientBooking(apt: Appointment, patient: Patient)
      modifies this`patients, this`appointments
      ensures (patients, appointments) == MergeBooking(old(patients), old(appointments), apt, patient)
    {
      var (ps, as_) := MergeBooking(patients, appointments, apt, patient);
      patients := ps;
      appointments := as_;
    }

    /** `handleClientCancelAppointment` */
    method CancelAppointment(id: string)
      modifies this`appointments
      ensures appointments == CancelById(old(appointments), id)
    {
      appointments := CancelById(appointments, id);
    }

    /** `handleClockIn`: the signed-in employee's own record is refreshed when it is theirs. */
    method ClockInEmployee(empId: string, date: string, time: string)
      modifies this`employees, this`currentUser
      ensures employees == ClockIn(old(employees), empId, date, time)
      ensures currentUser ==
        if old(currentUser).Some? && old(currentUser).value.id == empId && Find(employees, (e: Employee) => e.id == empId).Some?
        then Find(employees, (e: Employee) => e.id == empId)
        else old(currentUser)
    {
      employees := ClockIn(employees, empId, date, time);
      if currentUser.Some? && currentUser.value.id == empId {
        var updated := Find(employees, (e: Employee) => e.id == empId);
        if updated.Some? {
          currentUser := updated;
        }
      }
    }

    /** `handleClockOut` */
    method ClockOutEmployee(empId: string, date: string, time: string)
      modifies this`employees, this`currentUser
      ensures employees == ClockOut(old(employees), empId, date, time)
      ensures currentUser ==
        if old(currentUser).Some? && old(currentUser).value.id == empId && Find(employees, (e: Employee) => e.id == empId).Some?
        then Find(employees, (e: Employee) => e.id == empId)
        else old(currentUser)
    {
      employees := ClockOut(employees, empId, date, time);
      if currentUser.Some? && currentUser.value.id == empId {
        var updated := Find(employees, (e: Employee) => e.id == empId);
        if updated.Some? {
          currentUser := updated;
        }
      }
    }
  }
}
