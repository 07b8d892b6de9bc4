/**
 * One patient's file: the age shown from the birth date, clinical notes,
 * the edit form and the before/after photo gallery. Each change produces
 * the updated patient record, which the application then stores.
 */
module PatientDetail {
  import opened Wrappers
  import opened Domain
  import opened Calendar
  import opened Registration
  import AppointmentManager

  // ---------------------------------------------------------------------------
  // Age

  /** Calendar order on (year, month, day). */
  predicate DateLe(a: Date, b: Date) {
    a.year < b.year || (a.year == b.year && (a.month < b.month || (a.month == b.month && a.day <= b.day)))
  }

  /** The `k`-th birthday of someone born on `birth`. */
  function Birthday(birth: Date, k: int): Date {
    Date(birth.year + k, birth.month, birth.day)
  }

  /**
   * `calculateAge`: 0 for an empty birth date; for a birth date that is not
   * a date (JavaScript's NaN) nothing; otherwise the year difference, one
   * less while this year's birthday is still ahead. A day past the month's
   * end is rolled over first, as `new Date` does. The result is the number
   * of birthdays reached by `today`: the age-th one has passed, the next has
   * not.
   */
  method CalculateAge(birthDate: string, today: Date) returns (age: Option<int>)
    ensures birthDate == "" ==> age == Some(0)
    ensures birthDate != "" && ParseDate(birthDate).None? ==> age.None?
    ensures birthDate != "" && ParseDate(birthDate).Some? ==>
      var birth := Normalize(ParseDate(birthDate).value);
      age.Some? && DateLe(Birthday(birth, age.value), today) && !DateLe(Birthday(birth, age.value + 1), today)
  {
    if birthDate == "" {
      return Some(0);
    }
    var parsed := ParseDate(birthDate);
    if parsed.None? {
      return None;
    }
    var birth := Normalize(parsed.value);
    var years := today.year - birth.year;
    var m := today.month - birth.month;
    if m < 0 || (m == 0 && today.day < birth.day) {
      years := years - 1;
    }
    age := Some(years);
  }

  /** "2001-02-31" is read as the 3rd of March 2001, so on the 1st of March 2024 the age is 22. */
  lemma RolledOverBirthAge()
    ensures ParseDate("2001-02-31") == Some(Date(2001, 2, 31))
    ensures Normalize(Date(2001, 2, 31)) == Date(2001, 3, 3)
    ensures forall age ::
      (DateLe(Birthday(Date(2001, 3, 3), age), Date(2024, 3, 1)) && !DateLe(Birthday(Date(2001, 3, 3), age + 1), Date(2024, 3, 1)))
      <==> age == 22
  {
    var d := Date(2001, 2, 31);
    FormatParse(d);
    assert FormatDate(d) == "2001-02-31";
  }

  /** Someone born on or before today has a non-negative age. */
  lemma AgeOfPastBirth(birth: Date, today: Date, age: int)
    requires DateLe(birth, today)
    requires DateLe(Birthday(birth, age), today) && !DateLe(Birthday(birth, age + 1), today)
    ensures age >= 0
  {
  }

  /** The age is unique: at most one count of birthdays is reached and the next not. */
  lemma AgeUnique(birth: Date, today: Date, a1: int, a2: int)
    requires DateLe(Birthday(birth, a1), today) && !DateLe(Birthday(birth, a1 + 1), today)
    requires DateLe(Birthday(birth, a2), today) && !DateLe(Birthday(birth, a2 + 1), today)
    ensures a1 == a2
  {
  }

  // ---------------------------------------------------------------------------
  // Notes, edits, photos

  /** `handleAddNote`: both treatment and observations are needed; the new note goes first. */
  function AddNote(patient: Patient, treatment: string, observations: string, now: string, today: string): (r: Option<Patient>)
    ensures r.None? <==> treatment == "" || observations == ""
    ensures r.Some? ==>
      r.value == patient.(history := r.value.history)
      && r.value.history == [ClinicalNote(now, today, treatment, observations, [])] + patient.history
  {
    if treatment == "" || observations == "" then None
    else Some(patient.(history := [ClinicalNote(now, today, treatment, observations, [])] + patient.history))
  }

  /** After a first note, the patient no longer pays the new-client deposit. */
  lemma NoteEndsNewClient(patient: Patient, treatment: string, observations: string, now: string, today: string)
    requires AddNote(patient, treatment, observations, now, today).Some?
    ensures !AppointmentManager.IsNewClient(AddNote(patient, treatment, observations, now, today).value)
  {
  }

  datatype EditError = BadPhone | BadEmergencyPhone

  /** `handleSaveEdit`: the edited record is saved only with ten-digit phone and emergency phone. */
  function SaveEdit(editForm: Patient): (r: Result<Patient, EditError>)
    ensures !HasTenDigits(editForm.phone) ==> r == Err(BadPhone)
    ensures HasTenDigits(editForm.phone) && !HasTenDigits(editForm.emergencyContact.phone) ==> r == Err(BadEmergencyPhone)
    ensures r.Ok? <==> HasTenDigits(editForm.phone) && HasTenDigits(editForm.emergencyContact.phone)
    ensures r.Ok? ==> r.value == editForm
  {
    if !HasTenDigits(editForm.phone) then Err(BadPhone)
    else if !HasTenDigits(editForm.emergencyContact.phone) then Err(BadEmergencyPhone)
    else Ok(editForm)
  }

  /** `handleAddPhoto`: needs a picture; the new photo goes first, ahead of any earlier ones. */
  function AddPhoto(patient: Patient, url: string, date: string, kind: PhotoKind, notes: string, now: string): (r: Option<Patient>)
    ensures r.None? <==> url == ""
    ensures r.Some? ==>
      r.value == patient.(progressPhotos := r.value.progressPhotos)
      && r.value.progressPhotos == Some([ProgressPhoto("ph-" + now, date, kind, url, notes)] + patient.progressPhotos.GetOr([]))
  {
    if url == "" then None
    else Some(patient.(progressPhotos := Some([ProgressPhoto("ph-" + now, date, kind, url, notes)] + patient.progressPhotos.GetOr([]))))
  }

  /** Photos are only ever added: every earlier photo is still there, in the same order, after the new one. */
  lemma PhotosKept(patient: Patient, url: string, date: string, kind: PhotoKind, notes: string, now: string)
    requires url != ""
    ensures var after := AddPhoto(patient, url, date, kind, notes, now).value.progressPhotos.value;
      |after| == |patient.progressPhotos.GetOr([])| + 1 && after[1..] == patient.progressPhotos.GetOr([])
  {
  }
}
