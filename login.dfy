/**
 * The sign-in screen: staff sign in with their phone, clients with their
 * email, phone or client code; a forgotten password is sent by WhatsApp or
 * by email to whoever the recovery query finds, staff first.
 */
module Login {
  import opened Wrappers
  import opened Text
  import opened Seqs
  import opened Domain

  datatype Tab = EmployeeTab | ClientTab

  /** Who signed in, and with which role. */
  datatype User = StaffUser(employee: Employee) | ClientUser(patient: Patient)

  /** The two errors a sign-in can show. */
  datatype LoginError = WrongPassword | UnknownEmployee | UnknownClient

  // ---------------------------------------------------------------------------
  // Lookups

  /** A staff member is found by the digits of their phone, whatever the separators typed. */
  predicate PhoneMatches(identifier: string, e: Employee) {
    Digits(e.phone) == Digits(identifier)
  }

  /** The client query: lowercased, then trimmed. */
  function ClientQuery(identifier: string): string {
    Trim(Lower(identifier))
  }

  /** A client matches on email or client code (any case), or on phone digits once seven are typed. */
  predicate ClientMatches(query: string, p: Patient) {
    Lower(p.email) == query
    || (|Digits(query)| >= 7 && Digits(p.phone) == Digits(query))
    || Lower(p.clientCode) == query
  }

  /** A short query never finds a client by phone. */
  lemma ShortQueryNotByPhone(query: string, p: Patient)
    requires |Digits(query)| < 7 && ClientMatches(query, p)
    ensures Lower(p.email) == query || Lower(p.clientCode) == query
  {
  }

  /** A client code typed in capitals still finds its client. */
  lemma CodeInAnyCase(p: Patient, identifier: string)
    requires Lower(identifier) == Lower(p.clientCode)
    requires LeadingSpaces(Lower(identifier)) == 0 && TrailingSpaces(Lower(identifier)) == 0
    ensures ClientMatches(ClientQuery(identifier), p)
  {
    var t := Lower(identifier);
    assert TrimStart(t) == t;
    assert Trim(t) == t;
  }

  // ---------------------------------------------------------------------------
  // Signing in

  /**
   * `handleLogin`: the first user the identifier finds is signed in when
   * the stored password equals the typed one, trimmed; the two failures
   * (no such user, wrong password) show different errors.
   */
  function SignIn(tab: Tab, identifier: string, password: string, employees: seq<Employee>, patients: seq<Patient>): (r: Result<User, LoginError>)
    ensures tab == EmployeeTab ==>
      var found := Find(employees, e => PhoneMatches(identifier, e));
      (found.None? ==> r == Err(UnknownEmployee))
      && (found.Some? && found.value.password != Some(Trim(password)) ==> r == Err(WrongPassword))
      && (found.Some? && found.value.password == Some(Trim(password)) ==> r == Ok(StaffUser(found.value)))
    ensures tab == ClientTab ==>
      var found := Find(patients, p => ClientMatches(ClientQuery(identifier), p));
      (found.None? ==> r == Err(UnknownClient))
      && (found.Some? && found.value.password != Some(Trim(password)) ==> r == Err(WrongPassword))
      && (found.Some? && found.value.password == Some(Trim(password)) ==> r == Ok(ClientUser(found.value)))
  {
    match tab
    case EmployeeTab =>
      (match Find(employees, e => PhoneMatches(identifier, e))
       case None => Err(UnknownEmployee)
       case Some(e) => if e.password == Some(Trim(password)) then Ok(StaffUser(e)) else Err(WrongPassword))
    case ClientTab =>
      (match Find(patients, p => ClientMatches(ClientQuery(identifier), p))
       case None => Err(UnknownClient)
       case Some(p) => if p.password == Some(Trim(password)) then Ok(ClientUser(p)) else Err(WrongPassword))
  }

  /** Signing in as staff needs an employee on file with that phone and that password. */
  lemma {:induction false} StaffSignInSound(identifier: string, password: string, employees: seq<Employee>, patients: seq<Patient>)
    requires SignIn(EmployeeTab, identifier, password, employees, patients).Ok?
    ensures var u := SignIn(EmployeeTab, identifier, password, employees, patients).value;
      u.StaffUser? && u.employee in employees && PhoneMatches(identifier, u.employee)
      && u.employee.password == Some(Trim(password))
  {
    var found := Find(employees, e => PhoneMatches(identifier, e));
    assert found.Some?;
  }

  /** An employee whose password was never set cannot sign in. */
  lemma NoPasswordNoSignIn(identifier: string, password: string, employees: seq<Employee>, patients: seq<Patient>)
    requires forall e :: e in employees ==> e.password.None?
    ensures SignIn(EmployeeTab, identifier, password, employees, patients).Err?
  {
  }

  /** The first client listed wins when two match the same query. */
  lemma FirstClientWins(identifier: string, password: string, patients: seq<Patient>, employees: seq<Employee>, i: int)
    requires 0 <= i < |patients| && ClientMatches(ClientQuery(identifier), patients[i])
    requires forall k :: 0 <= k < i ==> !ClientMatches(ClientQuery(identifier), patients[k])
    requires patients[i].password == Some(Trim(password))
    ensures SignIn(ClientTab, identifier, password, employees, patients) == Ok(ClientUser(patients[i]))
  {
    var found := FindIndex(patients, p => ClientMatches(ClientQuery(identifier), p));
    assert found == i;
  }

  // ---------------------------------------------------------------------------
  // Password recovery

  datatype Channel = WhatsApp | Email

  /** `isPhoneInput`: the digits typed (never anything else) are at least seven. */
  function RecoveryChannel(query: string): (c: Channel)
    ensures c == WhatsApp <==> |Digits(query)| >= 7
  {
    var digits := Digits(query);
    if |digits| >= 1 && AllDigits(digits) && |digits| >= 7 then WhatsApp else Email
  }

  predicate StaffRecoveryMatches(query: string, e: Employee) {
    Digits(e.phone) == Digits(query) || Lower(e.email) == query
  }

  predicate ClientRecoveryMatches(query: string, p: Patient) {
    Lower(p.email) == query || Digits(p.phone) == Digits(query) || Lower(p.clientCode) == query
  }

  datatype RecoveryStatus = Idle | Success | Failure

  /** The message shown after a recovery request. */
  datatype RecoveryMsg = NoMsg | NotFound | WhatsAppOpened(phone: string) | MailOpened(email: string)

  /** The link opened for the user: the channel and where it goes. */
  datatype RecoveryLink = RecoveryLink(channel: Channel, to: string)

  class LoginScreen {
    var error: Option<LoginError>
    var recoveryStatus: RecoveryStatus
    var recoveryMsg: RecoveryMsg

    constructor ()
      ensures error.None? && recoveryStatus == Idle && recoveryMsg == NoMsg
    {
      error := None;
      recoveryStatus := Idle;
      recoveryMsg := NoMsg;
    }

    /** `handleLogin`: the error is cleared, then set when the sign-in fails. */
    method HandleLogin(tab: Tab, identifier: string, password: string, employees: seq<Employee>, patients: seq<Patient>)
      returns (signedIn: Option<User>)
      modifies this`error
      ensures var r := SignIn(tab, identifier, password, employees, patients);
        (r.Ok? ==> signedIn == Some(r.value) && error.None?)
        && (r.Err? ==> signedIn.None? && error == Some(r.error))
    {
      error := None;
      var r := SignIn(tab, identifier, password, employees, patients);
      if r.Ok? {
        signedIn := Some(r.value);
      } else {
        signedIn := None;
        error := Some(r.error);
      }
    }

    /**
     * `handleRecoverySubmit`: an empty query does nothing more than reset the
     * status; staff are searched first, clients only when no staff member
     * matches; the password goes by WhatsApp to the user's phone when the
     * query is a phone number, otherwise by email to the user's address.
     */
    method HandleRecoverySubmit(input: string, employees: seq<Employee>, patients: seq<Patient>)
      returns (link: Option<RecoveryLink>)
      modifies this`recoveryStatus, this`recoveryMsg
      ensures var query := Trim(Lower(input));
        var staff := Find(employees, e => StaffRecoveryMatches(query, e));
        var client := Find(patients, p => ClientRecoveryMatches(query, p));
        (query == "" ==> link.None? && recoveryStatus == Idle && recoveryMsg == old(recoveryMsg))
        && (query != "" && staff.None? && client.None? ==>
              link.None? && recoveryStatus == Failure && recoveryMsg == NotFound)
        && (query != "" && staff.Some? ==>
              recoveryStatus == Success
              && link == Some(if RecoveryChannel(query) == WhatsApp then RecoveryLink(WhatsApp, staff.value.phone)
                              else RecoveryLink(Email, staff.value.email)))
        && (query != "" && staff.None? && client.Some? ==>
              recoveryStatus == Success
              && link == Some(if RecoveryChannel(query) == WhatsApp then RecoveryLink(WhatsApp, client.value.phone)
                              else RecoveryLink(Email, client.value.email)))
      ensures link.Some? ==>
        recoveryMsg == if link.value.channel == WhatsApp then WhatsAppOpened(link.value.to) else MailOpened(link.value.to)
    {
      recoveryStatus := Idle;
      var query := Trim(Lower(input));
      if query == "" {
        return None;
      }
      var foundUser: Option<User> := None;
      var staff := Find(employees, e => StaffRecoveryMatches(query, e));
      if staff.Some? {
        foundUser := Some(StaffUser(staff.value));
      }
      if foundUser.None? {
        var client := Find(patients, p => ClientRecoveryMatches(query, p));
        if client.Some? {
          foundUser := Some(ClientUser(client.value));
        }
      }
      if foundUser.None? {
        recoveryStatus := Failure;
        recoveryMsg := NotFound;
        return None;
      }
      var phone := if foundUser.value.StaffUser? then foundUser.value.employee.phone else foundUser.value.patient.phone;
      var email := if foundUser.value.StaffUser? then foundUser.value.employee.email else foundUser.value.patient.email;
      if RecoveryChannel(query) == WhatsApp {
        link := Some(RecoveryLink(WhatsApp, phone));
        recoveryMsg := WhatsAppOpened(phone);
      } else {
        link := Some(RecoveryLink(Email, email));
        recoveryMsg := MailOpened(email);
      }
      recoveryStatus := Success;
    }
  }
}
