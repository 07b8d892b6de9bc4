/**
 * The staff's patient list: the search box and the new-patient form with
 * its checks (phones, password strength, confirmation).
 */
module PatientList {
  import opened Wrappers
  import opened Text
  import opened Seqs
  import opened Domain
  import opened Registration
  import ClientBooking

  // ---------------------------------------------------------------------------
  // Search

  /** The term, ignoring case, occurs in the name, the email or the client code. */
  predicate Matches(term: string, p: Patient) {
    Contains(Lower(p.fullName), Lower(term))
    || Contains(Lower(p.email), Lower(term))
    || Contains(Lower(p.clientCode), Lower(term))
  }

  /** `filteredPatients`: the patients the search term matches, in list order. */
  function FilteredPatients(patients: seq<Patient>, term: string): (r: seq<Patient>)
    ensures forall p :: p in r <==> p in patients && Matches(term, p)
    ensures |r| <= |patients|
  {
    FilterMembership(patients, p => Matches(term, p));
    Filter(patients, p => Matches(term, p))
  }

  /** An empty search box lists everyone, in the same order. */
  lemma {:induction false} EmptySearchKeepsAll(patients: seq<Patient>)
    ensures FilteredPatients(patients, "") == patients
  {
    forall i | 0 <= i < |patients| ensures Matches("", patients[i]) {
      ContainsEmpty(Lower(patients[i].fullName));
    }
    FilterAllPass(patients, p => Matches("", p));
  }

  /** Typing a patient's client code, in any case, finds that patient. */
  lemma ClientCodeFinds(patients: seq<Patient>, p: Patient, term: string)
    requires p in patients && EqualsIgnoreCase(p.clientCode, term)
    ensures p in FilteredPatients(patients, term)
  {
    assert Contains(Lower(p.clientCode), Lower(term));
  }

  /** A match is a genuine occurrence of the lowered term in one of the three fields. */
  lemma MatchIsOccurrence(term: string, p: Patient)
    requires Matches(term, p)
    ensures Occurs(Lower(p.fullName), Lower(term)) || Occurs(Lower(p.email), Lower(term))
         || Occurs(Lower(p.clientCode), Lower(term))
  {
    ContainsMeansOccurs(Lower(p.fullName), Lower(term));
    ContainsMeansOccurs(Lower(p.email), Lower(term));
    ContainsMeansOccurs(Lower(p.clientCode), Lower(term));
  }

  // ---------------------------------------------------------------------------
  // Password strength

  /** A character `.` in a regular expression does not match: the line terminators. */
  predicate IsLineTerminator(c: char) {
    c == '\n' || c == '\r' || c == '\U{2028}' || c == '\U{2029}'
  }

  /**
   * `validatePassword`, the pattern `^(?=.*[A-Z])(?=.*\d).{8,}$`: at least
   * eight characters, none of them a line terminator, among them an
   * uppercase letter A-Z and a digit 0-9.
   */
  predicate StrongPassword(pwd: string) {
    |pwd| >= 8
    && (forall i :: 0 <= i < |pwd| ==> !IsLineTerminator(pwd[i]))
    && (exists i :: 0 <= i < |pwd| && IsUpper(pwd[i]))
    && (exists i :: 0 <= i < |pwd| && IsDigit(pwd[i]))
  }

  /** What the rule accepts and refuses, one requirement at a time. */
  lemma PasswordExamples()
    ensures StrongPassword("Spa2024x")
    ensures !StrongPassword("spa2024x") && !StrongPassword("Spaspaspa") && !StrongPassword("Spa2024")
    ensures !StrongPassword("Spa\n2024x")
  {
    assert "Spa2024x"[0] == 'S' && "Spa2024x"[3] == '2';
    assert "Spa\n2024x"[3] == '\n';
  }

  /** Adding text without a line break, before or after, never makes a strong password weak. */
  lemma StrongPasswordExtends(p: string, q: string)
    requires StrongPassword(p)
    requires forall i :: 0 <= i < |q| ==> !IsLineTerminator(q[i])
    ensures StrongPassword(p + q) && StrongPassword(q + p)
  {
    var u :| 0 <= u < |p| && IsUpper(p[u]);
    var d :| 0 <= d < |p| && IsDigit(p[d]);
    assert (p + q)[u] == p[u] && (p + q)[d] == p[d];
    assert (q + p)[|q| + u] == p[u] && (q + p)[|q| + d] == p[d];
    forall i | 0 <= i < |p + q| ensures !IsLineTerminator((p + q)[i]) && !IsLineTerminator((q + p)[i]) {
      if i < |p| { assert (p + q)[i] == p[i]; } else { assert (p + q)[i] == q[i - |p|]; }
      if i < |q| { assert (q + p)[i] == q[i]; } else { assert (q + p)[i] == p[i - |q|]; }
    }
  }

  /** The rule looks only at which characters a password has, not at their order. */
  lemma StrongPasswordReordered(p: string, q: string)
    requires multiset(p) == multiset(q)
    ensures StrongPassword(p) <==> StrongPassword(q)
  {
    assert |p| == |multiset(p)| == |multiset(q)| == |q|;
    if StrongPassword(p) { StrongOfSameChars(p, q); }
    if StrongPassword(q) { StrongOfSameChars(q, p); }
  }

  lemma StrongOfSameChars(p: string, q: string)
    requires multiset(p) == multiset(q) && |p| == |q|
    requires StrongPassword(p)
    ensures StrongPassword(q)
  {
    var u :| 0 <= u < |p| && IsUpper(p[u]);
    var d :| 0 <= d < |p| && IsDigit(p[d]);
    assert p[u] in multiset(q) && p[d] in multiset(q);
    var u' :| 0 <= u' < |q| && q[u'] == p[u];
    var d' :| 0 <= d' < |q| && q[d'] == p[d];
    forall i | 0 <= i < |q| ensures !IsLineTerminator(q[i]) {
      assert q[i] in multiset(p);
      var j :| 0 <= j < |p| && p[j] == q[i];
    }
  }

  // ---------------------------------------------------------------------------
  // New patient

  datatype PatientForm = PatientForm(
    name: string,
    email: string,
    password: string,
    confirmPassword: string,
    phone: string,
    birthDate: string,
    allergies: string,
    emergName: string,
    emergPhone: string,
    avatar: string)

  /** The alert shown when the form is refused. */
  datatype PatientFormError = BadPhone | BadEmergencyPhone | WeakPassword | PasswordMismatch

  /**
   * `handleSubmit`: the checks run in order (phone, emergency phone,
   * strength, confirmation); a form that passes them becomes a patient with
   * a fresh id, client code and file number, no history, and the employee
   * who registered them. `ctx.patientCount` is the length of the list.
   */
  method HandleSubmit(form: PatientForm, registeredBy: Employee, ctx: ClientBooking.BookingContext)
    returns (r: Result<Patient, PatientFormError>)
    requires 0.0 <= ctx.draw < 1.0
    ensures !HasTenDigits(form.phone) ==> r == Err(BadPhone)
    ensures HasTenDigits(form.phone) && !HasTenDigits(form.emergPhone) ==> r == Err(BadEmergencyPhone)
    ensures (HasTenDigits(form.phone) && HasTenDigits(form.emergPhone) && !StrongPassword(form.password)) ==>
      r == Err(WeakPassword)
    ensures (HasTenDigits(form.phone) && HasTenDigits(form.emergPhone) && StrongPassword(form.password)
             && form.password != form.confirmPassword) ==> r == Err(PasswordMismatch)
    ensures r.Ok? <==> (HasTenDigits(form.phone) && HasTenDigits(form.emergPhone) && StrongPassword(form.password)
                        && form.password == form.confirmPassword)
    ensures r.Ok? ==>
      var p := r.value;
      p.id == "p" + ctx.now && p.clientCode == ClientCode(form.name, ctx.draw)
      && p.fileNumber == FileNumber(ctx.patientCount)
      && p.fullName == form.name && p.email == form.email && p.password == Some(form.password)
      && p.phone == form.phone && p.birthDate == form.birthDate
      && p.skinType == "Por definir" && p.allergies == ClientBooking.OrElse(form.allergies, "Ninguna")
      && p.emergencyContact == EmergencyContact(form.emergName, form.emergPhone)
      && p.avatarUrl == ClientBooking.OrElse(form.avatar, ctx.defaultAvatar)
      && p.history == [] && p.progressPhotos == Some([]) && p.clinicRecommendations == ""
      && p.registeredBy == registeredBy.fullName && p.registrationDate == ctx.today && p.assignedTherapist == ""
  {
    if |Digits(form.phone)| != 10 {
      return Err(BadPhone);
    }
    if |Digits(form.emergPhone)| != 10 {
      return Err(BadEmergencyPhone);
    }
    if !StrongPassword(form.password) {
      return Err(WeakPassword);
    }
    if form.password != form.confirmPassword {
      return Err(PasswordMismatch);
    }
    var patient := Patient(
      "p" + ctx.now,
      ClientCode(form.name, ctx.draw),
      FileNumber(ctx.patientCount),
      form.name,
      Some(form.password),
      form.birthDate,
      form.email,
      form.phone,
      "Por definir",
      ClientBooking.OrElse(form.allergies, "Ninguna"),
      EmergencyContact(form.emergName, form.emergPhone),
      [],
      Some([]),
      "",
      ClientBooking.OrElse(form.avatar, ctx.defaultAvatar),
      registeredBy.fullName,
      ctx.today,
      "");
    return Ok(patient);
  }

  /** The first patient registered on an empty list gets file number 0100. */
  lemma FirstFileNumber()
    ensures FileNumber(0) == "0100"
  {
    assert NatToDecimal(100) == "100" by {
      assert NatToDecimal(10) == "10";
    }
  }
}
