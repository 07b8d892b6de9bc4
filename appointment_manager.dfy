/**
 * The staff agenda: its own copy of the appointment list, the form that
 * books an appointment for a registered patient, and the payment dialog in
 * which staff adjust the service, price and discount and work out what the
 * client owes.
 */
module AppointmentManager {
  import opened Wrappers
  import opened Text
  import opened Seqs
  import opened Domain
  import ClientBooking

  // ---------------------------------------------------------------------------
  // Prices and settlement

  predicate NoServiceNamed(services: seq<Service>, name: string) {
    forall i :: 0 <= i < |services| ==> services[i].name != name
  }

  predicate NoProductNamed(products: seq<Product>, name: string) {
    forall i :: 0 <= i < |products| ==> products[i].name != name
  }

  /**
   * `findItemPrice`: the price of the first service with that name, else of
   * the first product with that name, else of the first promotion with that
   * title (0 when it sets none), else 0.
   */
  function FindItemPrice(services: seq<Service>, products: seq<Product>, promotions: seq<Promotion>, name: string): (r: real)
    ensures (exists i :: 0 <= i < |services| && services[i].name == name) ==>
      exists i :: 0 <= i < |services| && services[i].name == name && r == services[i].price
        && forall k :: 0 <= k < i ==> services[k].name != name
    ensures (NoServiceNamed(services, name) && exists i :: 0 <= i < |products| && products[i].name == name) ==>
      exists i :: 0 <= i < |products| && products[i].name == name && r == products[i].price
        && forall k :: 0 <= k < i ==> products[k].name != name
    ensures (NoServiceNamed(services, name) && NoProductNamed(products, name)
             && exists i :: 0 <= i < |promotions| && promotions[i].title == name) ==>
      exists i :: 0 <= i < |promotions| && promotions[i].title == name && r == AmountOr0(promotions[i].price)
        && forall k :: 0 <= k < i ==> promotions[k].title != name
    ensures (NoServiceNamed(services, name) && NoProductNamed(products, name)
             && forall i :: 0 <= i < |promotions| ==> promotions[i].title != name) ==> r == 0.0
  {
    var i := FindIndex(services, (s: Service) => s.name == name);
    if i < |services| then services[i].price
    else
      var j := FindIndex(products, (p: Product) => p.name == name);
      if j < |products| then products[j].price
      else
        var k := FindIndex(promotions, (p: Promotion) => p.title == name);
        if k < |promotions| then AmountOr0(promotions[k].price) else 0.0
  }

  /** What `sendNotification` works out: the list price, the price after discount and what to pay now. */
  datatype Settlement = Settlement(total: real, finalPrice: real, deposit: real)

  /**
   * `total = price || 0`, `finalPrice = total - total * (discount || 0) / 100`,
   * and a deposit of a quarter of the final price from a new client, the full
   * final price from anyone else.
   */
  function Settle(price: Option<real>, discount: Option<real>, isNewClient: bool): (s: Settlement)
    ensures s.total == AmountOr0(price)
    ensures s.finalPrice == s.total * (100.0 - AmountOr0(discount)) / 100.0
    ensures isNewClient ==> 4.0 * s.deposit == s.finalPrice
    ensures !isNewClient ==> s.deposit == s.finalPrice
    ensures s.total >= 0.0 && 0.0 <= AmountOr0(discount) <= 100.0 ==>
      0.0 <= s.deposit <= s.finalPrice <= s.total
  {
    var total := AmountOr0(price);
    var finalPrice := total - total * (AmountOr0(discount) / 100.0);
    Settlement(total, finalPrice, if isNewClient then finalPrice * 0.25 else finalPrice)
  }

  /** A larger discount never raises what the client pays. */
  lemma SettleDiscountMonotone(price: Option<real>, d1: real, d2: real, isNewClient: bool)
    requires AmountOr0(price) >= 0.0 && d1 <= d2
    ensures Settle(price, Some(d2), isNewClient).finalPrice <= Settle(price, Some(d1), isNewClient).finalPrice
    ensures Settle(price, Some(d2), isNewClient).deposit <= Settle(price, Some(d1), isNewClient).deposit
  {
    var t := AmountOr0(price);
    assert t * d1 <= t * d2;
  }

  /** No discount (or none recorded) charges the list price; a full discount charges nothing. */
  lemma SettleDiscountExtremes(price: Option<real>, isNewClient: bool)
    ensures Settle(price, None, isNewClient).finalPrice == AmountOr0(price)
    ensures Settle(price, Some(0.0), isNewClient).finalPrice == AmountOr0(price)
    ensures Settle(price, Some(100.0), isNewClient).finalPrice == 0.0
  {
  }

  // ---------------------------------------------------------------------------
  // Derived lists

  /** `sortedAppointments`: the agenda by date and time, earliest first. */
  function SortedAppointments(list: seq<Appointment>): (r: seq<Appointment>)
    ensures SortedBy(r, When, false)
    ensures multiset(r) == multiset(list)
  {
    SortBySortsAndPermutes(list, When, false);
    SortBy(list, When, false)
  }

  /** The services staff may pick: the active ones, the same list visitors are offered. */
  function OfferedServices(services: seq<Service>): (r: seq<Service>)
    ensures forall s :: s in r <==> s in services && s.active
  {
    ClientBooking.ActiveServices(services)
  }

  /** The promotions staff may pick: the active ones, the same list visitors are offered. */
  function OfferedPromotions(promotions: seq<Promotion>): (r: seq<Promotion>)
    ensures forall p :: p in r <==> p in promotions && p.active
  {
    ClientBooking.ActivePromotions(promotions)
  }

  /** The products staff may pick: active and in stock, of either category. */
  function OfferedProducts(products: seq<Product>): (r: seq<Product>)
    ensures forall p :: p in r <==> p in products && p.active && p.stock > 0
  {
    FilterMembership(products, (p: Product) => p.active && p.stock > 0);
    Filter(products, (p: Product) => p.active && p.stock > 0)
  }

  function FindPatient(patients: seq<Patient>, id: string): (r: Option<Patient>)
    ensures r.Some? ==> r.value in patients && r.value.id == id
    ensures r.None? ==> forall p :: p in patients ==> p.id != id
    ensures r.Some? ==> exists i :: 0 <= i < |patients| && patients[i] == r.value && forall k :: 0 <= k < i ==> patients[k].id != id
  {
    Find(patients, (p: Patient) => p.id == id)
  }

  // ---------------------------------------------------------------------------
  // Payment adjustment

  /**
   * The appointment as the payment dialog saves it: new service, price and
   * discount; the discount is credited to the current user when it changed
   * and is positive, otherwise the previous credit stays.
   */
  function Adjusted(a: Appointment, service: string, price: real, discount: real, userName: Option<string>): (r: Appointment)
    ensures r.id == a.id && r.patientId == a.patientId && r.patientName == a.patientName
    ensures r.date == a.date && r.time == a.time && r.status == a.status
    ensures r.assignedTo == a.assignedTo && r.paymentVerified == a.paymentVerified
    ensures r.service == service && r.price == Some(price) && r.discount == Some(discount)
    ensures r.discountAppliedBy == if a.discount != Some(discount) && discount > 0.0 then userName else a.discountAppliedBy
  {
    a.(service := service, price := Some(price), discount := Some(discount),
       discountAppliedBy := if a.discount != Some(discount) && discount > 0.0 then userName else a.discountAppliedBy)
  }

  /** Saving the same adjustment again changes nothing, whoever saves it: the discount stays credited to its first author. */
  lemma AdjustedIdempotent(a: Appointment, service: string, price: real, discount: real, u1: Option<string>, u2: Option<string>)
    ensures Adjusted(Adjusted(a, service, price, discount, u1), service, price, discount, u2)
         == Adjusted(a, service, price, discount, u1)
  {
  }

  /** State of the payment dialog. */
  datatype PaymentModal = PaymentModal(
    isOpen: bool,
    appointment: Option<Appointment>,
    patient: Option<Patient>,
    currentService: string,
    currentPrice: real,
    discountPercent: real,
    isNewClient: bool)

  const ClosedModal := PaymentModal(false, None, None, "", 0.0, 0.0, false)

  /** The new-appointment form; the price field is already read as a number (`None` when left empty). */
  datatype AppointmentForm = AppointmentForm(
    patientId: string,
    service: string,
    date: string,
    time: string,
    assignedTo: string,
    price: Option<real>)

  const EmptyForm := AppointmentForm("", "", "", "", "", None)

  /** A client is new exactly when nothing has been recorded in their clinical history. */
  predicate IsNewClient(p: Patient) {
    |p.history| == 0
  }

  /** The agenda screen: its appointment list, the payment dialog and the booking form. */
  class Agenda {
    var appointments: seq<Appointment>
    var modal: PaymentModal
    var form: AppointmentForm

    /** An open dialog shows an appointment of the patient it shows, whose newness it knows. */
    ghost predicate Valid()
      reads this
    {
      modal.isOpen ==>
        modal.appointment.Some? && modal.patient.Some?
        && modal.appointment.value.patientId == modal.patient.value.id
        && modal.isNewClient == IsNewClient(modal.patient.value)
    }

    constructor (initial: seq<Appointment>)
      ensures Valid()
      ensures appointments == initial && modal == ClosedModal && form == EmptyForm
    {
      appointments := initial;
      modal := ClosedModal;
      form := EmptyForm;
    }

    /** `handleOpenPaymentModal`: opens the dialog on the appointment when its patient is registered. */
    method OpenPaymentModal(apt: Appointment, patients: seq<Patient>)
      requires Valid()
      modifies this`modal
      ensures Valid()
      ensures FindPatient(patients, apt.patientId).None? ==> modal == old(modal)
      ensures FindPatient(patients, apt.patientId).Some? ==>
        var p := FindPatient(patients, apt.patientId).value;
        modal == PaymentModal(true, Some(apt), Some(p), apt.service, AmountOr0(apt.price), AmountOr0(apt.discount), IsNewClient(p))
    {
      var patient := FindPatient(patients, apt.patientId);
      if patient.Some? {
        modal := PaymentModal(true, Some(apt), patient, apt.service, AmountOr0(apt.price), AmountOr0(apt.discount), IsNewClient(patient.value));
      }
    }

    /**
     * `handleSubmit`: with edit rights and a registered patient selected, puts
     * a confirmed appointment (no discount, payment not verified) at the head
     * of the list, opens the payment dialog on it and clears the form. It
     * returns the appointment it hands to `onAddAppointment`. No slot is
     * checked for conflicts.
     */
    method HandleSubmit(canEdit: bool, patients: seq<Patient>, now: string) returns (added: Option<Appointment>)
      requires Valid()
      modifies this
      ensures Valid()
      ensures !canEdit || FindPatient(patients, old(form.patientId)).None? ==>
        added.None? && appointments == old(appointments) && modal == old(modal) && form == old(form)
      ensures canEdit && FindPatient(patients, old(form.patientId)).Some? ==>
        var p := FindPatient(patients, old(form.patientId)).value;
        added.Some? && appointments == [added.value] + old(appointments) && form == EmptyForm
        && added.value.id == "apt" + now && added.value.patientId == p.id && added.value.patientName == p.fullName
        && added.value.date == old(form.date) && added.value.time == old(form.time) && added.value.service == old(form.service)
        && added.value.price == old(form.price) && added.value.discount == Some(0.0)
        && added.value.status == Confirmed && added.value.paymentVerified == Some(false)
        && added.value.assignedTo == (if old(form.assignedTo) == "" then None else Some(old(form.assignedTo)))
        && modal.isOpen && modal.appointment == added && modal.isNewClient == IsNewClient(p)
        && modal.currentPrice == AmountOr0(old(form.price)) && modal.discountPercent == 0.0
    {
      added := None;
      if !canEdit {
        return;
      }
      var patient := FindPatient(patients, form.patientId);
      if patient.Some? {
        var p := patient.value;
        var apt := Appointment(
          id := "apt" + now,
          patientId := p.id,
          patientName := p.fullName,
          date := form.date,
          time := form.time,
          service := form.service,
          price := form.price,
          discount := Some(0.0),
          discountAppliedBy := None,
          status := Confirmed,
          assignedTo := if form.assignedTo == "" then None else Some(form.assignedTo),
          paymentVerified := Some(false));
        appointments := [apt] + appointments;
        OpenPaymentModal(apt, patients);
        form := EmptyForm;
        added := Some(apt);
      }
    }

    /** `handleServiceChangeInPayment`: picking another item also picks up its catalog price. */
    method ChangeServiceInPayment(name: string, services: seq<Service>, products: seq<Product>, promotions: seq<Promotion>)
      requires Valid()
      modifies this`modal
      ensures Valid()
      ensures modal == old(modal).(currentService := name, currentPrice := FindItemPrice(services, products, promotions, name))
    {
      modal := modal.(currentService := name, currentPrice := FindItemPrice(services, products, promotions, name));
    }

    /**
     * `savePaymentAdjustments`: writes the dialog's service, price and
     * discount into the appointment with the dialog's id and returns the
     * saved appointment; nothing happens when the dialog holds none.
     */
    method SavePaymentAdjustments(userName: Option<string>) returns (saved: Option<Appointment>)
      requires Valid()
      modifies this`appointments
      ensures Valid()
      ensures old(modal.appointment).None? ==> saved.None? && appointments == old(appointments)
      ensures old(modal.appointment).Some? ==>
        saved == Some(Adjusted(old(modal.appointment).value, modal.currentService, modal.currentPrice, modal.discountPercent, userName))
        && appointments == MapAppointmentById(old(appointments), saved.value.id, _ => saved.value)
    {
      if modal.appointment.None? {
        return None;
      }
      var updated := Adjusted(modal.appointment.value, modal.currentService, modal.currentPrice, modal.discountPercent, userName);
      appointments := MapAppointmentById(appointments, updated.id, _ => updated);
      saved := Some(updated);
    }

    /** `sendNotification`: saves the adjustments, then settles the saved appointment for the dialog's patient. */
    method SettleForNotification(userName: Option<string>) returns (s: Option<Settlement>)
      requires Valid()
      modifies this`appointments
      ensures Valid()
      ensures old(modal.appointment).None? || modal.patient.None? ==> s.None?
      ensures old(modal.appointment).Some? && modal.patient.Some? ==>
        s == Some(Settle(Some(modal.currentPrice), Some(modal.discountPercent), modal.isNewClient))
    {
      var saved := SavePaymentAdjustments(userName);
      if saved.None? || modal.patient.None? {
        return None;
      }
      s := Some(Settle(saved.value.price, saved.value.discount, modal.isNewClient));
    }
  }
}
