/**
 * The signed-in client's own page: their appointments, newest date first,
 * and the cancel action offered on the ones still pending.
 */
module ClientPortal {
  import opened Wrappers
  import opened Seqs
  import opened Domain
  import App
  import ClientBooking

  function DateOf(a: Appointment): string { a.date }

  predicate Mine(patient: Patient, a: Appointment) { a.patientId == patient.id }

  /**
   * `myAppointments`: the patient's appointments, sorted by date, latest
   * first. ISO dates (`YYYY-MM-DD`) compare as text the way they compare
   * as days.
   */
  function MyAppointments(patient: Patient, appointments: seq<Appointment>): (r: seq<Appointment>)
    ensures forall a :: a in r <==> a in appointments && a.patientId == patient.id
    ensures SortedBy(r, DateOf, true)
    ensures multiset(r) == multiset(Filter(appointments, a => Mine(patient, a)))
  {
    var mine := Filter(appointments, a => Mine(patient, a));
    FilterMembership(appointments, a => Mine(patient, a));
    SortBySortsAndPermutes(mine, DateOf, true);
    var r := SortBy(mine, DateOf, true);
    assert forall a :: a in r <==> multiset(r)[a] > 0;
    assert forall a :: a in mine <==> multiset(mine)[a] > 0;
    r
  }

  /** An appointment shows each client only once, and never on another client's page. */
  lemma MyAppointmentsAreOwn(p: Patient, q: Patient, appointments: seq<Appointment>, a: Appointment)
    requires p.id != q.id
    requires a in MyAppointments(p, appointments)
    ensures a !in MyAppointments(q, appointments)
  {
  }

  /** The cancel button: only on a pending appointment, and only when cancelling is wired up. */
  predicate CanCancel(a: Appointment, hasCallback: bool) {
    a.status == Pending && hasCallback
  }

  /** `handleCancel`: the id is passed on only after confirmation and when there is a callback. */
  function HandleCancel(id: string, confirmed: bool, hasCallback: bool): (forwarded: Option<string>)
    ensures forwarded.Some? <==> confirmed && hasCallback
    ensures forwarded.Some? ==> forwarded.value == id
  {
    if confirmed && hasCallback then Some(id) else None
  }

  /**
   * Cancelling from the portal: the pending appointment the button was on
   * becomes cancelled, so the button is gone, and every other appointment
   * stays as it was; CancelFreesSlot says when its hour is free again.
   */
  lemma {:induction false} PortalCancelEffect(appointments: seq<Appointment>, i: int)
    requires 0 <= i < |appointments| && CanCancel(appointments[i], true)
    ensures var after := App.CancelById(appointments, HandleCancel(appointments[i].id, true, true).value);
      after[i].status == Cancelled && !CanCancel(after[i], true)
      && forall j :: 0 <= j < |appointments| && appointments[j].id != appointments[i].id ==> after[j] == appointments[j]
  {
  }

  /**
   * What the booking page reports for an hour once an id is cancelled: free
   * exactly when the hour is not blocked and no appointment with another id
   * holds it.
   */
  lemma {:induction false} CancelAvailability(config: BusinessConfig, appointments: seq<Appointment>, id: string, date: string, time: string)
    ensures ClientBooking.CheckAvailability(config, App.CancelById(appointments, id), date, time)
      <==> (ClientBooking.SlotKey(date, time) !in config.blockedSlots
           && forall j :: 0 <= j < |appointments| && appointments[j].id != id ==> !ClientBooking.Occupies(appointments[j], date, time))
  {
    var after := App.CancelById(appointments, id);
    if ClientBooking.SlotKey(date, time) !in config.blockedSlots {
      if forall j :: 0 <= j < |appointments| && appointments[j].id != id ==> !ClientBooking.Occupies(appointments[j], date, time) {
        forall a | a in after ensures !ClientBooking.Occupies(a, date, time) {
          var j :| 0 <= j < |after| && after[j] == a;
        }
      } else {
        var j :| 0 <= j < |appointments| && appointments[j].id != id && ClientBooking.Occupies(appointments[j], date, time);
        assert after[j] == appointments[j];
      }
    }
  }

  /**
   * Cancelling the appointment a client cancels from the portal frees its
   * hour on the booking page, unless the hour is blocked or another
   * appointment holds it.
   */
  lemma CancelFreesSlot(config: BusinessConfig, appointments: seq<Appointment>, i: int)
    requires 0 <= i < |appointments|
    requires ClientBooking.SlotKey(appointments[i].date, appointments[i].time) !in config.blockedSlots
    requires forall j :: 0 <= j < |appointments| && j != i ==> !ClientBooking.Occupies(appointments[j], appointments[i].date, appointments[i].time)
    ensures appointments[i].status != Cancelled ==>
      !ClientBooking.CheckAvailability(config, appointments, appointments[i].date, appointments[i].time)
    ensures ClientBooking.CheckAvailability(config, App.CancelById(appointments, appointments[i].id), appointments[i].date, appointments[i].time)
  {
    var a := appointments[i];
    CancelAvailability(config, appointments, a.id, a.date, a.time);
    assert forall j :: 0 <= j < |appointments| && appointments[j].id != a.id ==> j != i;
  }

  /**
   * A confirmed visit on 10 June 2024 at 10:00 takes that hour; once it is
   * cancelled the hour is free again.
   */
  lemma CancelScenario(config: BusinessConfig, a: Appointment)
    requires a.date == "2024-06-10" && a.time == "10:00" && a.status == Confirmed
    requires "2024-06-10 10:00" !in config.blockedSlots
    ensures !ClientBooking.CheckAvailability(config, [a], "2024-06-10", "10:00")
    ensures ClientBooking.CheckAvailability(config, App.CancelById([a], a.id), "2024-06-10", "10:00")
  {
    assert ClientBooking.SlotKey(a.date, a.time) == "2024-06-10 10:00";
    CancelFreesSlot(config, [a], 0);
  }

  /** The status badge as written: a completed appointment is labelled as cancelled. */
  function StatusLabelAsWritten(s: Status): string {
    if s == Confirmed then "Confirmada" else if s == Pending then "Pendiente" else "Cancelada"
  }

  /** The badge as written cannot tell a completed visit from a cancelled one. */
  lemma CompletedShownAsCancelled()
    ensures StatusLabelAsWritten(Completed) == StatusLabelAsWritten(Cancelled) == "Cancelada"
  {
  }

  /** The status badge with one label per status. */
  function StatusLabel(s: Status): (r: string)
    ensures s != Completed ==> r == StatusLabelAsWritten(s)
  {
    match s
    case Confirmed => "Confirmada"
    case Pending => "Pendiente"
    case Completed => "Completada"
    case Cancelled => "Cancelada"
  }

  /** Different statuses get different labels. */
  lemma StatusLabelInjective(s: Status, t: Status)
    requires s != t
    ensures StatusLabel(s) != StatusLabel(t)
  {
  }
}
