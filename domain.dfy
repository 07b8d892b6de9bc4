/**
 * The records the spa application keeps: appointments, patients, employees,
 * the service/product/promotion catalog and the business configuration.
 * An optional field whose absence the code tells apart from an empty value
 * is an `Option`; a text field that the code only tests for truthiness is a
 * string in which `""` stands for absent.
 */
module Domain {
  import opened Wrappers

  datatype Status = Confirmed | Pending | Completed | Cancelled

  datatype Permission =
    | All
    | ViewAppointments
    | EditAppointments
    | ViewPatients
    | EditPatients
    | ViewFinance
    | ManageSettings
    | ManageEmployees

  datatype Role = Admin | Client

  datatype View =
    | DashboardView
    | AppointmentsView
    | PatientsView
    | PatientDetailView
    | SettingsView
    | EmployeesView
    | ClientBookingView
    | ClientPortalView

  datatype WorkSchedule = WorkSchedule(dayOfWeek: int, active: bool, startTime: string, endTime: string)

  datatype AttendanceStatus = Present | Absent | Late

  datatype AttendanceRecord = AttendanceRecord(
    date: string,
    checkIn: Option<string>,
    checkOut: Option<string>,
    status: AttendanceStatus)

  datatype BankingInfo = BankingInfo(
    bankName: string,
    accountNumber: string,
    clabe: string,
    cardNumber: string,
    accountHolder: string)

  datatype EmployeeStatus = Active | Suspended | Terminated

  datatype Employee = Employee(
    id: string,
    fullName: string,
    email: string,
    phone: string,
    birthDate: string,
    hireDate: string,
    jobTitle: string,
    password: Option<string>,
    role: string,
    permissions: seq<Permission>,
    avatarUrl: string,
    workSchedule: seq<WorkSchedule>,
    attendanceLog: seq<AttendanceRecord>,
    bankingInfo: Option<BankingInfo>,
    status: EmployeeStatus,
    statusChangeDate: Option<string>)

  datatype Service = Service(
    id: string,
    name: string,
    price: real,
    duration: int,
    active: bool,
    description: string,
    imageUrl: string)

  datatype CategoryType = Retail | Professional

  datatype Product = Product(
    id: string,
    name: string,
    price: real,
    stock: int,
    active: bool,
    description: string,
    imageUrl: string,
    category: string,
    categoryType: Option<CategoryType>)

  datatype Promotion = Promotion(
    id: string,
    title: string,
    description: string,
    discountText: string,
    validUntil: string,
    active: bool,
    color: string,
    price: Option<real>)

  datatype DaySchedule = DaySchedule(
    dayOfWeek: int,
    dayName: string,
    isOpen: bool,
    openTime: string,
    closeTime: string)

  /** Contact details and mail settings are display data and are not kept here. */
  datatype BusinessConfig = BusinessConfig(
    schedule: seq<DaySchedule>,
    blockedDates: seq<string>,
    blockedSlots: seq<string>,
    bankingInfo: Option<BankingInfo>)

  datatype ClinicalNote = ClinicalNote(
    id: string,
    date: string,
    treatment: string,
    observations: string,
    productsUsed: seq<string>)

  datatype PhotoKind = Before | After

  datatype ProgressPhoto = ProgressPhoto(id: string, date: string, kind: PhotoKind, url: string, notes: string)

  datatype EmergencyContact = EmergencyContact(name: string, phone: string)

  datatype Patient = Patient(
    id: string,
    clientCode: string,
    fileNumber: string,
    fullName: string,
    password: Option<string>,
    birthDate: string,
    email: string,
    phone: string,
    skinType: string,
    allergies: string,
    emergencyContact: EmergencyContact,
    history: seq<ClinicalNote>,
    progressPhotos: Option<seq<ProgressPhoto>>,
    clinicRecommendations: string,
    avatarUrl: string,
    registeredBy: string,
    registrationDate: string,
    assignedTherapist: string)

  datatype Appointment = Appointment(
    id: string,
    patientId: string,
    patientName: string,
    date: string,
    time: string,
    service: string,
    price: Option<real>,
    discount: Option<real>,
    discountAppliedBy: Option<string>,
    status: Status,
    assignedTo: Option<string>,
    paymentVerified: Option<bool>)

  /** `x || fallback` on an optional amount: a missing amount (or zero) reads as 0. */
  function AmountOr0(x: Option<real>): real {
    match x
    case Some(v) => v
    case None => 0.0
  }

  /** An optional text that JavaScript treats as true: present and non-empty. */
  predicate Truthy(x: Option<string>) {
    x.Some? && x.value != ""
  }

  /** The date and time of an appointment as one sortable key (`date + 'T' + time`). */
  function When(a: Appointment): string {
    a.date + "T" + a.time
  }

  /** `list.map(x => x.id === id ? f(x) : x)` for appointments. */
  function MapAppointmentById(list: seq<Appointment>, id: string, f: Appointment -> Appointment): (r: seq<Appointment>)
    ensures |r| == |list|
    ensures forall i :: 0 <= i < |list| ==> r[i] == if list[i].id == id then f(list[i]) else list[i]
  {
    seq(|list|, i requires 0 <= i < |list| => if list[i].id == id then f(list[i]) else list[i])
  }
}
