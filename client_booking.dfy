/**
 * The public booking page: which items a visitor may book, which hours a
 * date offers, whether an hour is free, and the booking request it files
 * (an appointment waiting for confirmation plus the patient record it
 * belongs to).
 */
module ClientBooking {
  import opened Wrappers
  import opened Text
  import opened Seqs
  import opened Calendar
  import opened Domain
  import opened Registration

  // ---------------------------------------------------------------------------
  // Catalog offered to visitors

  /** Services offered to visitors: the active ones. */
  function ActiveServices(services: seq<Service>): (r: seq<Service>)
    ensures forall s :: s in r <==> s in services && s.active
  {
    FilterMembership(services, (s: Service) => s.active);
    Filter(services, (s: Service) => s.active)
  }

  /** Promotions offered to visitors: the active ones. */
  function ActivePromotions(promotions: seq<Promotion>): (r: seq<Promotion>)
    ensures forall p :: p in r <==> p in promotions && p.active
  {
    FilterMembership(promotions, (p: Promotion) => p.active);
    Filter(promotions, (p: Promotion) => p.active)
  }

  predicate OnSale(p: Product) {
    p.active && p.stock > 0 && p.categoryType == Some(Retail)
  }

  /** Products offered to visitors: active, in stock and for retail (not for use in treatments). */
  function PublicProducts(products: seq<Product>): (r: seq<Product>)
    ensures forall p :: p in r <==> p in products && p.active && p.stock > 0 && p.categoryType == Some(Retail)
  {
    FilterMembership(products, OnSale);
    Filter(products, OnSale)
  }

  datatype SelectionType = ServiceSelection | PromoSelection | ProductSelection

  datatype CatalogItem = ServiceItem(service: Service) | PromoItem(promo: Promotion) | ProductItem(product: Product)

  function ItemId(item: CatalogItem): string {
    match item
    case ServiceItem(s) => s.id
    case PromoItem(p) => p.id
    case ProductItem(p) => p.id
  }

  /** The item the visitor picked: the first of the chosen kind with the chosen id (any, active or not). */
  function SelectedItem(kind: SelectionType, id: string, services: seq<Service>, promotions: seq<Promotion>, products: seq<Product>): (r: Option<CatalogItem>)
    ensures r.Some? ==> ItemId(r.value) == id
    ensures r.Some? <==> match kind
      case ServiceSelection => exists i :: 0 <= i < |services| && services[i].id == id
      case PromoSelection => exists i :: 0 <= i < |promotions| && promotions[i].id == id
      case ProductSelection => exists i :: 0 <= i < |products| && products[i].id == id
    ensures r.Some? ==> match kind
      case ServiceSelection => r.value.ServiceItem? && r.value.service in services
      case PromoSelection => r.value.PromoItem? && r.value.promo in promotions
      case ProductSelection => r.value.ProductItem? && r.value.product in products
  {
    match kind
    case ServiceSelection =>
      (match Find(services, (s: Service) => s.id == id) case None => None case Some(s) => Some(ServiceItem(s)))
    case PromoSelection =>
      (match Find(promotions, (p: Promotion) => p.id == id) case None => None case Some(p) => Some(PromoItem(p)))
    case ProductSelection =>
      (match Find(products, (p: Product) => p.id == id) case None => None case Some(p) => Some(ProductItem(p)))
  }

  /** `getItemPrice`: the item's price, 0 when there is no item or the promotion sets no price. */
  function ItemPrice(item: Option<CatalogItem>): real {
    match item
    case None => 0.0
    case Some(ServiceItem(s)) => s.price
    case Some(PromoItem(p)) => AmountOr0(p.price)
    case Some(ProductItem(p)) => p.price
  }

  /** `getItemName`: a service's or product's name, a promotion's title. */
  function ItemName(item: Option<CatalogItem>): string {
    match item
    case None => ""
    case Some(ServiceItem(s)) => s.name
    case Some(PromoItem(p)) => p.title
    case Some(ProductItem(p)) => p.name
  }

  // ---------------------------------------------------------------------------
  // Opening hours and slots

  /** The schedule entry for the date's weekday; none for a date the browser cannot read. */
  function DayConfig(schedule: seq<DaySchedule>, date: string): (r: Option<DaySchedule>)
    ensures r.Some? ==> r.value in schedule && WeekdayOf(date) == Some(r.value.dayOfWeek)
    ensures r.None? && WeekdayOf(date).Some? ==> forall d :: d in schedule ==> d.dayOfWeek != WeekdayOf(date).value
  {
    match WeekdayOf(date)
    case None => None
    case Some(w) => Find(schedule, (d: DaySchedule) => d.dayOfWeek == w)
  }

  /** `parseInt(hhmm.split(':')[0])`: the hour of an `HH:MM` time; `None` for NaN. */
  function HourOf(time: string): Option<int> {
    ParseInt(BeforeFirst(time, ':'))
  }

  /** The first and the last-plus-one hour a date offers, when its day is open and both hours read. */
  function OpeningHours(schedule: seq<DaySchedule>, date: string): Option<(int, int)> {
    match DayConfig(schedule, date)
    case None => None
    case Some(d) =>
      if !d.isOpen then None
      else match (HourOf(d.openTime), HourOf(d.closeTime))
        case (Some(s), Some(e)) => Some((s, e))
        case _ => None
  }

  /** `` `${i.toString().padStart(2, '0')}:00` `` */
  function HourLabel(h: int): string {
    PadStart(IntToDecimal(h), 2, '0') + ":00"
  }

  /** The loop of `generateTimeSlots`: one label per hour from `startHour` up to, not including, `endHour`. */
  method HourSlots(startHour: int, endHour: int) returns (slots: seq<string>)
    ensures |slots| == if endHour > startHour then endHour - startHour else 0
    ensures forall k :: 0 <= k < |slots| ==> slots[k] == HourLabel(startHour + k)
  {
    slots := [];
    var i := startHour;
    while i < endHour
      invariant i == startHour + |slots|
      invariant i <= endHour || slots == []
      invariant forall k :: 0 <= k < |slots| ==> slots[k] == HourLabel(startHour + k)
      decreases endHour - i
    {
      slots := slots + [HourLabel(i)];
      i := i + 1;
    }
  }

  /**
   * `generateTimeSlots`: the hourly slots of the date's opening hours. A
   * closed day, a weekday without an entry, or an hour that does not read
   * (NaN) gives no slots; the minutes of both times are ignored.
   */
  method GenerateTimeSlots(schedule: seq<DaySchedule>, date: string) returns (slots: seq<string>)
    ensures OpeningHours(schedule, date).None? ==> slots == []
    ensures OpeningHours(schedule, date).Some? ==>
      var (s, e) := OpeningHours(schedule, date).value;
      |slots| == (if e > s then e - s else 0)
      && forall i :: 0 <= i < |slots| ==> slots[i] == HourLabel(s + i)
  {
    var hours := OpeningHours(schedule, date);
    if hours.None? {
      return [];
    }
    slots := HourSlots(hours.value.0, hours.value.1);
  }

  lemma HourLabelDigits(h: int)
    requires 0 <= h < 100
    ensures HourLabel(h) == Digits2(h) + ":00"
  {
    if h < 10 {
      assert NatToDecimal(h) == [DigitChar(h)];
      assert Repeat('0', 1) == "0";
    } else {
      assert NatToDecimal(h / 10) == [DigitChar(h / 10)];
    }
  }

  /** A slot label reads back as its hour: "09:00" reads as 9. */
  lemma HourLabelReadsBack(h: int)
    requires h >= 0
    ensures HourOf(HourLabel(h)) == Some(h)
  {
    var p := PadStart(NatToDecimal(h), 2, '0');
    assert HourLabel(h) == p + ":00";
    assert ':' !in p by {
      assert AllDigits(p) by {
        LeadingZerosIgnored(if |NatToDecimal(h)| < 2 then 2 - |NatToDecimal(h)| else 0, NatToDecimal(h));
      }
    }
    IndexOfConcat(p, ":00", ':');
    assert BeforeFirst(HourLabel(h), ':') == p;
    ParsePaddedNat(h, 2, "");
    assert p + "" == p;
  }

  /** Earlier hours of the day get labels that sort strictly first. */
  lemma HourLabelsIncrease(h1: int, h2: int)
    requires 0 <= h1 < h2 < 100
    ensures LexLe(HourLabel(h1), HourLabel(h2)) && HourLabel(h1) != HourLabel(h2)
  {
    HourLabelDigits(h1);
    HourLabelDigits(h2);
    var a, b := HourLabel(h1), HourLabel(h2);
    if h1 / 10 < h2 / 10 {
      assert a[0] < b[0];
    } else {
      assert a[0] == b[0] && a[1] < b[1];
      assert a[1..][0] < b[1..][0];
    }
  }

  /** The slots of an open day are in strictly increasing order and read back as their hours. */
  lemma SlotsIncrease(slots: seq<string>, s: int, i: int, j: int)
    requires forall k :: 0 <= k < |slots| ==> slots[k] == HourLabel(s + k)
    requires 0 <= s && s + |slots| <= 100
    requires 0 <= i < j < |slots|
    ensures LexLe(slots[i], slots[j]) && slots[i] != slots[j]
    ensures HourOf(slots[i]) == Some(s + i)
  {
    assert slots[i] == HourLabel(s + i) && slots[j] == HourLabel(s + j);
    HourLabelsIncrease(s + i, s + j);
    HourLabelReadsBack(s + i);
  }

  // ---------------------------------------------------------------------------
  // Blocking and availability

  /** `isDateBlocked`: the date is on the blocked list. */
  predicate IsDateBlocked(config: BusinessConfig, date: string) {
    date in config.blockedDates
  }

  /** `slotKey`: the date and the hour separated by one space. */
  function SlotKey(date: string, time: string): string {
    date + " " + time
  }

  /** An appointment that holds a slot: same date and time, not cancelled. */
  predicate Occupies(a: Appointment, date: string, time: string) {
    a.date == date && a.time == time && a.status != Cancelled
  }

  /** `checkAvailability` */
  function CheckAvailability(config: BusinessConfig, appointments: seq<Appointment>, date: string, time: string): (free: bool)
    ensures SlotKey(date, time) in config.blockedSlots ==> !free
    ensures SlotKey(date, time) !in config.blockedSlots ==>
      (free <==> forall a :: a in appointments ==> !Occupies(a, date, time))
  {
    if SlotKey(date, time) in config.blockedSlots then false
    else !Exists(appointments, (a: Appointment) => Occupies(a, date, time))
  }

  /** Cancelled appointments never occupy a slot: adding one changes no availability. */
  lemma CancelledNeverBlocks(config: BusinessConfig, appointments: seq<Appointment>, c: Appointment, date: string, time: string)
    requires c.status == Cancelled
    ensures CheckAvailability(config, [c] + appointments, date, time) == CheckAvailability(config, appointments, date, time)
  {
    assert forall a :: a in [c] + appointments <==> a == c || a in appointments;
  }

  /** A pending or confirmed appointment takes its slot away. */
  lemma BookedSlotIsTaken(config: BusinessConfig, appointments: seq<Appointment>, a: Appointment)
    requires a in appointments && a.status != Cancelled
    ensures !CheckAvailability(config, appointments, a.date, a.time)
  {
  }

  // ---------------------------------------------------------------------------
  // Filing a booking

  /** The booking form as the visitor filled it in. */
  datatype BookingForm = BookingForm(
    name: string,
    email: string,
    phone: string,
    birthDate: string,
    allergies: string,
    emergName: string,
    emergPhone: string,
    password: string,
    confirmPassword: string,
    date: string,
    time: string)

  /** Why a booking was not filed: no item picked (silently), or the alert shown. */
  datatype BookingError = NoItem | MissingFields | BadPhone | BadEmergencyPhone | ShortPassword | PasswordMismatch

  datatype Booking = Booking(appointment: Appointment, patient: Patient)

  /** What the page supplies besides the form: ids from the clock, today, a random draw, the defaults. */
  datatype BookingContext = BookingContext(
    now: string,
    today: string,
    draw: real,
    patientCount: nat,
    defaultAvatar: string)

  predicate HasEmptyField(f: BookingForm) {
    f.name == "" || f.email == "" || f.phone == "" || f.birthDate == "" || f.emergName == "" || f.emergPhone == ""
  }

  /** `s || fallback` for text. */
  function OrElse(s: string, fallback: string): string {
    if s != "" then s else fallback
  }

  /**
   * `handleBook`: checks the form in order (required fields, phone, emergency
   * phone, then, for a visitor not known as a client, the password and its
   * confirmation) and files a pending appointment with the patient record it
   * belongs to. The record keeps an existing client's identity and details
   * (`foundClient || currentUser`); a new visitor gets a fresh id, client
   * code and file number. The hour is not checked for availability again.
   */
  method HandleBook(form: BookingForm, item: Option<CatalogItem>, foundClient: Option<Patient>, currentUser: Option<Patient>, ctx: BookingContext)
    returns (r: Result<Booking, BookingError>)
    requires 0.0 <= ctx.draw < 1.0
    ensures item.None? ==> r == Err(NoItem)
    ensures item.Some? && HasEmptyField(form) ==> r == Err(MissingFields)
    ensures item.Some? && !HasEmptyField(form) && !HasTenDigits(form.phone) ==> r == Err(BadPhone)
    ensures item.Some? && !HasEmptyField(form) && HasTenDigits(form.phone) && !HasTenDigits(form.emergPhone) ==> r == Err(BadEmergencyPhone)
    ensures r.Err? && (r.error == ShortPassword || r.error == PasswordMismatch) ==> foundClient.None? && currentUser.None?
    ensures r.Err? && r.error == ShortPassword ==> |form.password| < 4
    ensures r.Err? && r.error == PasswordMismatch ==> |form.password| >= 4 && form.password != form.confirmPassword
    ensures (item.Some? && !HasEmptyField(form) && HasTenDigits(form.phone) && HasTenDigits(form.emergPhone)
             && foundClient.None? && currentUser.None? && |form.password| < 4) ==> r == Err(ShortPassword)
    ensures (item.Some? && !HasEmptyField(form) && HasTenDigits(form.phone) && HasTenDigits(form.emergPhone)
             && foundClient.None? && currentUser.None? && |form.password| >= 4 && form.password != form.confirmPassword)
      ==> r == Err(PasswordMismatch)
    ensures r.Ok? <==> (item.Some? && !HasEmptyField(form) && HasTenDigits(form.phone) && HasTenDigits(form.emergPhone)
      && (foundClient.None? && currentUser.None? ==> |form.password| >= 4 && form.password == form.confirmPassword))
    ensures r.Ok? ==>
      var a, p := r.value.appointment, r.value.patient;
      a.status == Pending && a.price == Some(ItemPrice(item)) && a.service == ItemName(item)
      && a.patientId == p.id && a.patientName == form.name && a.date == form.date && a.time == form.time
      && a.id == "apt-" + ctx.now
      && p.fullName == form.name && p.email == form.email && p.phone == form.phone
      && p.emergencyContact == EmergencyContact(form.emergName, form.emergPhone)
      && p.allergies == OrElse(form.allergies, "Ninguna")
    ensures r.Ok? && foundClient.Some? ==>
      var p := r.value.patient;
      p.id == foundClient.value.id && p.clientCode == foundClient.value.clientCode
      && p.fileNumber == foundClient.value.fileNumber && p.history == foundClient.value.history
    ensures r.Ok? && foundClient.None? && currentUser.Some? ==>
      var p := r.value.patient;
      p.id == currentUser.value.id && p.clientCode == currentUser.value.clientCode
      && p.fileNumber == currentUser.value.fileNumber && p.history == currentUser.value.history
    ensures r.Ok? && foundClient.None? && currentUser.None? ==>
      var p := r.value.patient;
      p.id == "p-" + ctx.now && p.clientCode == ClientCode(form.name, ctx.draw)
      && p.fileNumber == FileNumber(ctx.patientCount) && p.history == []
      && p.password == Some(form.password) && p.registeredBy == "Portal Web" && p.skinType == "Por definir"
  {
    if item.None? {
      return Err(NoItem);
    }
    if HasEmptyField(form) {
      return Err(MissingFields);
    }
    if |Digits(form.phone)| != 10 {
      return Err(BadPhone);
    }
    if |Digits(form.emergPhone)| != 10 {
      return Err(BadEmergencyPhone);
    }
    if foundClient.None? && currentUser.None? {
      if |form.password| < 4 {
        return Err(ShortPassword);
      }
      if form.password != form.confirmPassword {
        return Err(PasswordMismatch);
      }
    }

    var known := if foundClient.Some? then foundClient else currentUser;
    var patientId := if known.Some? then known.value.id else "p-" + ctx.now;
    var clientCode := if known.Some? then known.value.clientCode else ClientCode(form.name, ctx.draw);
    var fileNumber := if known.Some? then known.value.fileNumber else FileNumber(ctx.patientCount);
    var password :=
      if known.None? then Some(form.password)
      else if foundClient.Some? && Truthy(foundClient.value.password) then foundClient.value.password
      else if currentUser.Some? then currentUser.value.password
      else None;
    var patient := Patient(
      id := patientId,
      clientCode := clientCode,
      fileNumber := fileNumber,
      fullName := form.name,
      password := password,
      birthDate := form.birthDate,
      email := form.email,
      phone := form.phone,
      skinType := OrElse(if known.Some? then known.value.skinType else "", "Por definir"),
      allergies := OrElse(form.allergies, "Ninguna"),
      emergencyContact := EmergencyContact(form.emergName, form.emergPhone),
      history := if known.Some? then known.value.history else [],
      progressPhotos := if known.Some? && known.value.progressPhotos.Some? then known.value.progressPhotos else Some([]),
      clinicRecommendations := if known.Some? then known.value.clinicRecommendations else "",
      avatarUrl := OrElse(if known.Some? then known.value.avatarUrl else "", ctx.defaultAvatar),
      registeredBy := OrElse(if known.Some? then known.value.registeredBy else "", "Portal Web"),
      registrationDate := OrElse(if known.Some? then known.value.registrationDate else "", ctx.today),
      assignedTherapist := if known.Some? then known.value.assignedTherapist else "");
    var appointment := Appointment(
      id := "apt-" + ctx.now,
      patientId := patient.id,
      patientName := form.name,
      date := form.date,
      time := form.time,
      service := ItemName(item),
      price := Some(ItemPrice(item)),
      discount := None,
      discountAppliedBy := None,
      status := Pending,
      assignedTo := None,
      paymentVerified := None);
    return Ok(Booking(appointment, patient));
  }

  /** The deposit the success screen asks for: a quarter of the item price, and only from a new client. */
  function SuccessDeposit(item: Option<CatalogItem>, foundClient: Option<Patient>, currentUser: Option<Patient>): (r: Option<real>)
    ensures r.Some? <==> foundClient.None? && currentUser.None?
    ensures r.Some? ==> 4.0 * r.value == ItemPrice(item)
  {
    if foundClient.None? && currentUser.None? then Some(ItemPrice(item) * 0.25) else None
  }

  // ---------------------------------------------------------------------------
  // Scenario: the default Monday

  const DefaultSchedule: seq<DaySchedule> := [
    DaySchedule(1, "Lunes", true, "09:00", "19:00"),
    DaySchedule(2, "Martes", true, "09:00", "19:00"),
    DaySchedule(3, "Miércoles", true, "09:00", "19:00"),
    DaySchedule(4, "Jueves", true, "09:00", "19:00"),
    DaySchedule(5, "Viernes", true, "09:00", "19:00"),
    DaySchedule(6, "Sábado", true, "10:00", "14:00"),
    DaySchedule(0, "Domingo", false, "00:00", "00:00")
  ]

  lemma DefaultMonday()
    ensures DayConfig(DefaultSchedule, "2024-06-10") == Some(DefaultSchedule[0])
  {
    MondayScenario();
  }

  lemma LabelReadsBack(h: int, text: string)
    requires 0 <= h < 100 && text == Digits2(h) + ":00"
    ensures HourOf(text) == Some(h)
  {
    HourLabelDigits(h);
    HourLabelReadsBack(h);
  }

  lemma LabelsOfNineAndSeven()
    ensures HourOf("09:00") == Some(9) && HourOf("19:00") == Some(19)
  {
    assert Digits2(9) == "09" && Digits2(19) == "19";
    LabelReadsBack(9, "09:00");
    LabelReadsBack(19, "19:00");
  }

  /** A Monday under the default schedule opens at 9 and closes at 19: ten one-hour slots. */
  lemma MondayOpensNineToSeven()
    ensures OpeningHours(DefaultSchedule, "2024-06-10") == Some((9, 19))
  {
    DefaultMonday();
    LabelsOfNineAndSeven();
  }
}
