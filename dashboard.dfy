/**
 * The staff dashboard: requests waiting for confirmation, today's visits
 * split into product sales and treatments, the signed-in employee's clock
 * status, products running low, the day's estimated income and the recent
 * activity timeline.
 */
module Dashboard {
  import opened Wrappers
  import opened Seqs
  import opened Domain
  import App

  // ---------------------------------------------------------------------------
  // Requests and today's visits

  /** `pendingRequests`: every pending appointment, earliest first. */
  function PendingRequests(appointments: seq<Appointment>): (r: seq<Appointment>)
    ensures forall a :: a in r <==> a in appointments && a.status == Pending
    ensures SortedBy(r, When, false)
    ensures multiset(r) == multiset(Filter(appointments, (a: Appointment) => a.status == Pending))
  {
    var pending := Filter(appointments, (a: Appointment) => a.status == Pending);
    FilterMembership(appointments, (a: Appointment) => a.status == Pending);
    SortBySortsAndPermutes(pending, When, false);
    var r := SortBy(pending, When, false);
    assert forall a :: a in r <==> multiset(r)[a] > 0;
    assert forall a :: a in pending <==> multiset(pending)[a] > 0;
    r
  }

  predicate IsToday(today: string, a: Appointment) {
    a.date == today && a.status != Cancelled
  }

  /** `todayAppointments`: today's appointments that are not cancelled. */
  function TodayAppointments(appointments: seq<Appointment>, today: string): (r: seq<Appointment>)
    ensures forall a :: a in r <==> a in appointments && a.date == today && a.status != Cancelled
  {
    FilterMembership(appointments, a => IsToday(today, a));
    Filter(appointments, a => IsToday(today, a))
  }

  /** A visit is a product sale when a retail product carries the service's name. */
  predicate IsRetailSale(products: seq<Product>, a: Appointment) {
    exists p :: p in products && p.name == a.service && p.categoryType == Some(Retail)
  }

  predicate IsTreatment(products: seq<Product>, a: Appointment) {
    !IsRetailSale(products, a)
  }

  function SalesToday(todays: seq<Appointment>, products: seq<Product>): (r: seq<Appointment>)
    ensures forall a :: a in r <==> a in todays && IsRetailSale(products, a)
  {
    FilterMembership(todays, a => IsRetailSale(products, a));
    Filter(todays, a => IsRetailSale(products, a))
  }

  function TreatmentsToday(todays: seq<Appointment>, products: seq<Product>): (r: seq<Appointment>)
    ensures forall a :: a in r <==> a in todays && !IsRetailSale(products, a)
  {
    FilterMembership(todays, a => IsTreatment(products, a));
    Filter(todays, a => IsTreatment(products, a))
  }

  /** Every visit of the day is counted once: as a sale or as a treatment, never both. */
  lemma {:induction false} SalesAndTreatmentsPartition(todays: seq<Appointment>, products: seq<Product>, a: Appointment)
    ensures multiset(SalesToday(todays, products))[a] + multiset(TreatmentsToday(todays, products))[a] == multiset(todays)[a]
  {
    FilterMultiset(todays, a => IsRetailSale(products, a), a);
    FilterMultiset(todays, a => IsTreatment(products, a), a);
  }

  /** A product with no category type shows on the retail tab in settings, yet selling it counts as a treatment here. */
  lemma UntypedProductIsTreatment(a: Appointment, p: Product)
    requires p.categoryType.None? && p.name == a.service
    ensures IsTreatment([p], a)
  {
  }

  // ---------------------------------------------------------------------------
  // Income

  function Amount(a: Appointment): real { AmountOr0(a.price) }

  /** The estimated income: today's visits' prices added up, a missing price as zero. */
  function EstimatedIncome(appointments: seq<Appointment>, today: string): real {
    SumOf(TodayAppointments(appointments, today), Amount)
  }

  /** The day's income is what the sales bring plus what the treatments bring. */
  lemma IncomeSplits(appointments: seq<Appointment>, today: string, products: seq<Product>)
    ensures var todays := TodayAppointments(appointments, today);
      SumOf(SalesToday(todays, products), Amount) + SumOf(TreatmentsToday(todays, products), Amount)
      == EstimatedIncome(appointments, today)
  {
    var todays := TodayAppointments(appointments, today);
    SumOfPartition(todays, Amount, a => IsRetailSale(products, a), a => IsTreatment(products, a));
  }

  /** With no negative prices on file, the estimated income is never negative. */
  lemma IncomeNonNegative(appointments: seq<Appointment>, today: string)
    requires forall a :: a in appointments ==> Amount(a) >= 0.0
    ensures EstimatedIncome(appointments, today) >= 0.0
  {
    var todays := TodayAppointments(appointments, today);
    assert forall i :: 0 <= i < |todays| ==> todays[i] in appointments;
    SumOfNonNegative(todays, Amount);
  }

  // ---------------------------------------------------------------------------
  // Clock status and staff

  /** The signed-in employee's first attendance record for today; none when there is none. */
  function TodayLog(user: Option<Employee>, today: string): (r: Option<AttendanceRecord>)
    ensures r.Some? ==> user.Some? && r.value in user.value.attendanceLog && r.value.date == today
    ensures r.None? <==> user.None? || forall l :: l in user.value.attendanceLog ==> l.date != today
    ensures r.Some? ==> var log := user.value.attendanceLog;
      exists i :: 0 <= i < |log| && log[i] == r.value && forall k :: 0 <= k < i ==> log[k].date != today
  {
    if user.None? then None else Find(user.value.attendanceLog, (l: AttendanceRecord) => l.date == today)
  }

  /** `isClockedIn`: checked in today and not yet out. */
  predicate IsClockedIn(user: Option<Employee>, today: string) {
    var log := TodayLog(user, today);
    log.Some? && Truthy(log.value.checkIn) && !Truthy(log.value.checkOut)
  }

  /** `isClockedOut`: checked out today. */
  predicate IsClockedOut(user: Option<Employee>, today: string) {
    var log := TodayLog(user, today);
    log.Some? && Truthy(log.value.checkOut)
  }

  /** Never shown as both clocked in and clocked out. */
  lemma ClockStatesExclusive(user: Option<Employee>, today: string)
    ensures !(IsClockedIn(user, today) && IsClockedOut(user, today))
  {
  }

  lemma {:induction false} FindAfterMisses<T>(a: seq<T>, x: T, p: T -> bool)
    requires forall i :: 0 <= i < |a| ==> !p(a[i])
    requires p(x)
    ensures Find(a + [x], p) == Some(x)
  {
    assert forall i :: 0 <= i < |a| ==> (a + [x])[i] == a[i];
    assert (a + [x])[|a|] == x;
  }

  /**
   * Clocking in on a day with no record yet shows the employee as clocked
   * in; clocking out afterwards shows them as clocked out.
   */
  lemma {:induction false} ClockInThenOutStatus(employees: seq<Employee>, i: int, today: string, tin: string, tout: string)
    requires 0 <= i < |employees| && tin != "" && tout != ""
    requires forall k :: 0 <= k < |employees[i].attendanceLog| ==> employees[i].attendanceLog[k].date != today
    ensures IsClockedIn(Some(App.ClockIn(employees, employees[i].id, today, tin)[i]), today)
    ensures IsClockedOut(Some(App.ClockOut(App.ClockIn(employees, employees[i].id, today, tin), employees[i].id, today, tout)[i]), today)
  {
    var id := employees[i].id;
    var log := employees[i].attendanceLog;
    var isToday := (l: AttendanceRecord) => l.date == today;
    var rec := AttendanceRecord(today, Some(tin), None, Present);
    FindAfterMisses(log, rec, isToday);
    var after := App.ClockOut(App.ClockIn(employees, id, today, tin), id, today, tout)[i].attendanceLog;
    assert after == App.CloseRecords(log + [rec], today, tout);
    forall k | 0 <= k < |log| ensures after[k] == log[k] {
      assert (log + [rec])[k] == log[k];
    }
    FindAfterMisses(log, rec.(checkOut := Some(tout)), isToday);
    assert after == log + [rec.(checkOut := Some(tout))];
  }

  /** Staff working today: an active schedule entry for today's weekday. */
  function ActiveStaff(employees: seq<Employee>, dayOfWeek: int): (r: seq<Employee>)
    ensures forall e :: e in r <==> e in employees && exists s :: s in e.workSchedule && s.dayOfWeek == dayOfWeek && s.active
  {
    FilterMembership(employees, (e: Employee) => Exists(e.workSchedule, (s: WorkSchedule) => s.dayOfWeek == dayOfWeek && s.active));
    Filter(employees, (e: Employee) => Exists(e.workSchedule, (s: WorkSchedule) => s.dayOfWeek == dayOfWeek && s.active))
  }

  /** The stock level at or under which a product is flagged. */
  const LowStockThreshold := 5

  /** `lowStockItems`: active products with five or fewer in stock. */
  function LowStockItems(products: seq<Product>): (r: seq<Product>)
    ensures forall p :: p in r <==> p in products && p.stock <= LowStockThreshold && p.active
  {
    FilterMembership(products, (p: Product) => p.stock <= LowStockThreshold && p.active);
    Filter(products, (p: Product) => p.stock <= LowStockThreshold && p.active)
  }

  // ---------------------------------------------------------------------------
  // Timeline

  datatype EventKind = SaleEvent | AppointmentEvent | NewPatientEvent

  /** One line of the activity timeline; `at` is the moment it is ordered by. */
  datatype TimelineEvent = TimelineEvent(id: string, kind: EventKind, person: string, date: string, at: string, price: Option<real>)

  function At(e: TimelineEvent): string { e.at }

  function AppointmentEventOf(products: seq<Product>, a: Appointment): TimelineEvent {
    TimelineEvent(a.id, if IsRetailSale(products, a) then SaleEvent else AppointmentEvent, a.patientName, a.date, When(a), a.price)
  }

  /** A registration without a date is shown as today's. */
  function PatientEventOf(today: string, p: Patient): TimelineEvent {
    var d := if p.registrationDate != "" then p.registrationDate else today;
    TimelineEvent(p.id, NewPatientEvent, p.fullName, d, d + "T00:00:00", Some(0.0))
  }

  function AllEvents(appointments: seq<Appointment>, patients: seq<Patient>, products: seq<Product>, today: string): (r: seq<TimelineEvent>)
    ensures |r| == |appointments| + |patients|
    ensures forall i :: 0 <= i < |appointments| ==> r[i] == AppointmentEventOf(products, appointments[i])
    ensures forall j :: 0 <= j < |patients| ==> r[|appointments| + j] == PatientEventOf(today, patients[j])
  {
    seq(|appointments|, i requires 0 <= i < |appointments| => AppointmentEventOf(products, appointments[i]))
    + seq(|patients|, i requires 0 <= i < |patients| => PatientEventOf(today, patients[i]))
  }

  /** `displayTimeline`: every event, latest first, cut to the first ten. */
  function Timeline(appointments: seq<Appointment>, patients: seq<Patient>, products: seq<Product>, today: string): (r: seq<TimelineEvent>)
    ensures |r| <= 10
    ensures SortedBy(r, At, true)
    ensures |r| == if |appointments| + |patients| < 10 then |appointments| + |patients| else 10
    ensures forall e :: e in r ==> e in AllEvents(appointments, patients, products, today)
    ensures multiset(r) <= multiset(AllEvents(appointments, patients, products, today))
    ensures |appointments| + |patients| <= 10 ==> multiset(r) == multiset(AllEvents(appointments, patients, products, today))
    ensures var all := SortBy(AllEvents(appointments, patients, products, today), At, true);
      forall i, j :: 0 <= i < |r| <= j < |all| ==> KeyLe(At, true, r[i], all[j])
  {
    var all := AllEvents(appointments, patients, products, today);
    var sorted := SortBy(all, At, true);
    SortBySortsAndPermutes(all, At, true);
    assert |sorted| == |multiset(sorted)| == |multiset(all)| == |all|;
    assert forall e :: e in sorted ==> e in all by {
      forall e | e in sorted ensures e in all {
        assert multiset(sorted)[e] > 0;
      }
    }
    TakeOfSorted(sorted, 10, At, true);
    Take(sorted, 10)
  }
}
